/**
 * The placement rules of the game controller
 * (Assets/Scripts/GameSceneController.cs, PlaceShip and SetPlacementCell), as
 * functions on the 100-cell placement buffer. The buffer holds 0 for an
 * empty cell and a ship's code 1..5 for an occupied one.
 *
 * The bounds test is modelled as written: a horizontal run may end at
 * x = Size, one column beyond the board. Its last cell then flattens to the
 * first cell of the next row, and the run is only refused when that index
 * reaches the end of the buffer.
 */
module ShipPlacement {
  import opened Wrappers
  import opened Board

  /** The controller's modes. */
  datatype GameMode = Placement | Battle | Result

  /** A ship of the placement sequence: its length and its kind. */
  datatype Ship = Ship(size: int, kind: ShipType)

  /** The lengths of the five ships, in placement order. */
  const FleetSizes := [2, 3, 3, 4, 5]

  /** Number of ships to place. */
  const FleetCount := 5

  /**
   * The ship to place after `shipPlaced` ships: Destroyer (2), Cruiser (3),
   * Submarine (3), BattleShip (4), AircraftCarrier (5); none once five are
   * placed.
   */
  function ShipFor(shipPlaced: int): (r: Option<Ship>)
    ensures r.Some? <==> 0 <= shipPlaced < FleetCount
    ensures r.Some? ==> r.value.kind.Code() == shipPlaced + 1 && r.value.size == FleetSizes[shipPlaced]
  {
    match shipPlaced
    case 0 => Some(Ship(2, Destroyer))
    case 1 => Some(Ship(3, Cruiser))
    case 2 => Some(Ship(3, Submarine))
    case 3 => Some(Ship(4, BattleShip))
    case 4 => Some(Ship(5, AircraftCarrier))
    case _ => None
  }

  /**
   * Cell i of a run: i columns right of the anchor when horizontal, i rows
   * below it otherwise. Its flattened index moves by i, or by i rows of Size.
   */
  function RunCell(anchor: Coord, i: int, horizontal: bool): (c: Coord)
    ensures CellIndex(c) == CellIndex(anchor) + (if horizontal then i else -i * Size)
    ensures horizontal ==> c.y == anchor.y
    ensures !horizontal ==> c.x == anchor.x
  {
    if horizontal then Coord(anchor.x + i, anchor.y) else Coord(anchor.x, anchor.y - i)
  }

  /**
   * PlaceShip's bounds test, as written (`x + (width - 1) > MapSize`). For a
   * ship of at least one cell it holds iff the anchor column is not negative,
   * the last cell of the run is at most at column Size (one past the board)
   * and not below row 0.
   */
  function PassesBoundsTest(anchor: Coord, size: int, horizontal: bool): (ok: bool)
    ensures size >= 1 ==>
      (ok <==> 0 <= anchor.x && RunCell(anchor, size - 1, horizontal).x <= Size && RunCell(anchor, size - 1, horizontal).y >= 0)
  {
    var width := if horizontal then size else 1;
    var height := if horizontal then 1 else size;
    !(anchor.x < 0 || anchor.x + (width - 1) > Size || anchor.y - (height - 1) < 0)
  }

  /**
   * SetPlacementCell's test: the flattened index lies in the buffer and holds
   * no ship. On a full-size buffer every cell of the board is inside it, so
   * only its content decides; a cell whose index is outside is never free.
   */
  function CellFree(p: seq<int>, c: Coord): (free: bool)
    ensures |p| == CellCount && OnBoard(c) ==> (free <==> p[CellIndex(c)] <= 0)
    ensures !(0 <= CellIndex(c) < |p|) ==> !free
  {
    0 <= CellIndex(c) < |p| && !(p[CellIndex(c)] > 0)
  }

  /** The dry-run pass: every cell of the run is free. */
  predicate RunFree(p: seq<int>, anchor: Coord, size: int, horizontal: bool) {
    forall i :: 0 <= i < size ==> CellFree(p, RunCell(anchor, i, horizontal))
  }

  /** The buffer indices the run covers. */
  function RunIndices(anchor: Coord, size: int, horizontal: bool): set<int> {
    set i | 0 <= i < size :: CellIndex(RunCell(anchor, i, horizontal))
  }

  /** The buffer with every run cell set to `code`. */
  function Occupy(p: seq<int>, anchor: Coord, size: int, horizontal: bool, code: int): seq<int> {
    seq(|p|, j requires 0 <= j < |p| => if j in RunIndices(anchor, size, horizontal) then code else p[j])
  }

  /**
   * What PlaceShip does to the buffer: the buffer with the current ship
   * added, or None when it leaves the buffer (and everything else) alone:
   * outside Placement mode, after the fifth ship, when the bounds test fails
   * or when a run cell is outside the buffer or taken.
   */
  function PlaceOutcome(mode: GameMode, shipPlaced: int, horizontal: bool, p: seq<int>, anchor: Coord): (r: Option<seq<int>>)
    ensures r.Some? ==> mode == Placement && 0 <= shipPlaced < FleetCount && |r.value| == |p|
    ensures r.Some? ==> PassesBoundsTest(anchor, ShipFor(shipPlaced).value.size, horizontal)
    ensures r.Some? <==>
      && mode == Placement
      && ShipFor(shipPlaced).Some?
      && PassesBoundsTest(anchor, ShipFor(shipPlaced).value.size, horizontal)
      && RunFree(p, anchor, ShipFor(shipPlaced).value.size, horizontal)
  {
    if mode != Placement then None
    else
      match ShipFor(shipPlaced)
      case None => None
      case Some(ship) =>
        if PassesBoundsTest(anchor, ship.size, horizontal) && RunFree(p, anchor, ship.size, horizontal)
        then Some(Occupy(p, anchor, ship.size, horizontal, ship.kind.Code()))
        else None
  }

  /** The cells of a run have pairwise different indices. */
  lemma RunIndicesDistinct(anchor: Coord, horizontal: bool, i: int, j: int)
    requires i != j
    ensures CellIndex(RunCell(anchor, i, horizontal)) != CellIndex(RunCell(anchor, j, horizontal))
  {
  }

  /** A run of n cells covers n buffer indices. */
  lemma {:induction false} RunIndicesCount(anchor: Coord, n: nat, horizontal: bool)
    ensures |RunIndices(anchor, n, horizontal)| == n
  {
    if n > 0 {
      var last := CellIndex(RunCell(anchor, n - 1, horizontal));
      assert RunIndices(anchor, n, horizontal) == RunIndices(anchor, n - 1, horizontal) + {last};
      assert last !in RunIndices(anchor, n - 1, horizontal) by {
        forall i | 0 <= i < n - 1
          ensures CellIndex(RunCell(anchor, i, horizontal)) != last
        {
          RunIndicesDistinct(anchor, horizontal, i, n - 1);
        }
      }
      RunIndicesCount(anchor, n - 1, horizontal);
    }
  }

  /**
   * An accepted placement writes exactly the `size` cells of the run, all of
   * them inside the buffer and free before, with the ship's code, and keeps
   * every other cell.
   */
  lemma AcceptedPlacement(mode: GameMode, shipPlaced: int, horizontal: bool, p: seq<int>, anchor: Coord)
    requires PlaceOutcome(mode, shipPlaced, horizontal, p, anchor).Some?
    ensures var ship := ShipFor(shipPlaced).value;
            var r := PlaceOutcome(mode, shipPlaced, horizontal, p, anchor).value;
            var run := RunIndices(anchor, ship.size, horizontal);
            && |run| == ship.size
            && (forall j :: j in run ==> 0 <= j < |p| && p[j] <= 0 && r[j] == ship.kind.Code())
            && (forall j :: 0 <= j < |p| && j !in run ==> r[j] == p[j])
  {
    var ship := ShipFor(shipPlaced).value;
    RunIndicesCount(anchor, ship.size, horizontal);
  }

  /** The buffer cells that hold a ship. */
  function OccupiedCells(p: seq<int>): set<int> {
    set j | 0 <= j < |p| && p[j] > 0
  }

  /**
   * An accepted placement adds exactly the run to the occupied cells: the
   * run did not overlap any ship, and the fleet grows by the ship's length.
   */
  lemma PlacementGrowsFleet(mode: GameMode, shipPlaced: int, horizontal: bool, p: seq<int>, anchor: Coord)
    requires PlaceOutcome(mode, shipPlaced, horizontal, p, anchor).Some?
    ensures var ship := ShipFor(shipPlaced).value;
            var r := PlaceOutcome(mode, shipPlaced, horizontal, p, anchor).value;
            var run := RunIndices(anchor, ship.size, horizontal);
            && OccupiedCells(p) !! run
            && OccupiedCells(r) == OccupiedCells(p) + run
            && |OccupiedCells(r)| == |OccupiedCells(p)| + ship.size
  {
    var ship := ShipFor(shipPlaced).value;
    var r := PlaceOutcome(mode, shipPlaced, horizontal, p, anchor).value;
    var run := RunIndices(anchor, ship.size, horizontal);
    AcceptedPlacement(mode, shipPlaced, horizontal, p, anchor);
    assert OccupiedCells(r) == OccupiedCells(p) + run;
    assert OccupiedCells(p) !! run;
  }

  /** Placing a ship keeps every cell a ship code or empty. */
  lemma PlacementKeepsCodes(mode: GameMode, shipPlaced: int, horizontal: bool, p: seq<int>, anchor: Coord)
    requires PlaceOutcome(mode, shipPlaced, horizontal, p, anchor).Some?
    requires forall j :: 0 <= j < |p| ==> 0 <= p[j] <= FleetCount
    ensures var r := PlaceOutcome(mode, shipPlaced, horizontal, p, anchor).value;
            forall j :: 0 <= j < |r| ==> 0 <= r[j] <= FleetCount
  {
  }

  /**
   * As written, a horizontal run whose last column is x = Size passes the
   * bounds test, and its last cell has the index of the first cell of the
   * next row.
   */
  lemma HorizontalRunWraps(anchor: Coord, size: int)
    requires 1 <= size <= Size && anchor.x == Size - size + 1 && anchor.y >= 0
    ensures PassesBoundsTest(anchor, size, true)
    ensures CellIndex(RunCell(anchor, size - 1, true)) == CellIndex(Coord(0, anchor.y + 1))
  {
  }

  /** On the top row such a run ends at index 100, past the buffer, and is refused. */
  lemma WrapPastLastRowRefused(p: seq<int>, anchor: Coord, size: int)
    requires |p| == CellCount
    requires size >= 1 && anchor.x == Size - size + 1 && anchor.y == Size - 1
    ensures !RunFree(p, anchor, size, true)
  {
    assert !CellFree(p, RunCell(anchor, size - 1, true));
  }

  /**
   * The first ship, horizontal at (9, 0) on an empty buffer, is accepted and
   * occupies buffer cells 9 and 10, the second of which is (0, 1).
   */
  lemma DestroyerAtNineZeroAccepted(p: seq<int>)
    requires |p| == CellCount && forall j :: 0 <= j < |p| ==> p[j] == 0
    ensures PlaceOutcome(Placement, 0, true, p, Coord(9, 0)) == Some(p[9 := 1][10 := 1])
  {
    assert RunIndices(Coord(9, 0), 2, true) == {9, 10} by {
      assert CellIndex(RunCell(Coord(9, 0), 0, true)) == 9;
      assert CellIndex(RunCell(Coord(9, 0), 1, true)) == 10;
    }
    assert RunFree(p, Coord(9, 0), 2, true) by {
      assert CellFree(p, RunCell(Coord(9, 0), 0, true));
      assert CellFree(p, RunCell(Coord(9, 0), 1, true));
    }
    var r := Occupy(p, Coord(9, 0), 2, true, 1);
    assert r == p[9 := 1][10 := 1] by {
      forall j | 0 <= j < |p|
        ensures r[j] == p[9 := 1][10 := 1][j]
      {
      }
    }
  }
}
