/**
 * The board arithmetic and the input modes of the map view
 * (Assets/Scripts/MapView.cs). The player's own fleet is drawn on rows 0..9,
 * the opponent's board ("radar") on rows 10..19 just above it. Tile maps,
 * camera and input devices are not modelled: `Select` receives the grid cell
 * the pointer is over and returns the call it dispatches.
 */
module Board {
  import opened Wrappers

  /** Side of one board, in cells (MapView.Size and GameSceneController.MapSize). */
  const Size := 10
  /** Number of cells on one board. */
  const CellCount := Size * Size

  /** A grid cell; the source's Vector3Int with z always 0. */
  datatype Coord = Coord(x: int, y: int)

  /** The player's own board: rows 0..9. */
  predicate OnBoard(c: Coord) {
    0 <= c.x < Size && 0 <= c.y < Size
  }

  /** The opponent's board as drawn: rows 10..19. */
  predicate OnRadar(c: Coord) {
    0 <= c.x < Size && Size <= c.y < 2 * Size
  }

  /** Row-major flattening `y * Size + x`, the cell index sent over the wire. */
  function CellIndex(c: Coord): int {
    c.y * Size + c.x
  }

  /** The ship kinds and their enum codes 1..5, which are also the cell values of the placement buffer. */
  datatype ShipType = Destroyer | Cruiser | Submarine | BattleShip | AircraftCarrier {
    function Code(): int {
      match this
      case Destroyer => 1
      case Cruiser => 2
      case Submarine => 3
      case BattleShip => 4
      case AircraftCarrier => 5
    }
  }

  /** Marker kinds; their codes 10..12 are indices into the tile palette. */
  datatype Marker = Target | Hit | Miss {
    function Code(): int {
      match this
      case Target => 10
      case Hit => 11
      case Miss => 12
    }
  }

  datatype MapMode = Disabled | Place | Attack

  /** What `Select` hands to the game controller. */
  datatype Dispatch = NoAction | PlaceAt(at: Coord) | TurnAt(at: Coord)

  /** A marker to draw: the cell of the marker layer and the palette index of its tile. */
  datatype MarkerDraw = MarkerDraw(cell: Coord, tile: int)

  function Max(a: int, b: int): int { if a < b then b else a }
  function Min(a: int, b: int): int { if a < b then a else b }

  /**
   * Vector3Int.Clamp, component by component: first raised to the lower
   * bound, then lowered to the upper bound.
   */
  function ClampCoord(c: Coord, lo: Coord, hi: Coord): (r: Coord)
    ensures lo.x <= hi.x && lo.y <= hi.y ==> lo.x <= r.x <= hi.x && lo.y <= r.y <= hi.y
    ensures lo.x <= c.x <= hi.x && lo.y <= c.y <= hi.y ==> r == c
    ensures c.x < lo.x <= hi.x ==> r.x == lo.x
    ensures lo.x <= hi.x < c.x ==> r.x == hi.x
    ensures c.y < lo.y <= hi.y ==> r.y == lo.y
    ensures lo.y <= hi.y < c.y ==> r.y == hi.y
  {
    Coord(Min(hi.x, Max(lo.x, c.x)), Min(hi.y, Max(lo.y, c.y)))
  }

  /**
   * The palette index of a ship tile (SetShipCursor and SetShip): two tiles per
   * ship kind, vertical first. The index identifies kind and orientation, and
   * never collides with a marker tile.
   */
  function ShipTileIndex(t: ShipType, horizontal: bool): (r: int)
    ensures 0 <= r < Target.Code()
    ensures r / 2 + 1 == t.Code()
    ensures r % 2 == 1 <==> horizontal
  {
    (t.Code() - 1) * 2 + (if horizontal then 1 else 0)
  }

  /** Different ship kinds or orientations never share a tile. */
  lemma ShipTileIndexInjective(a: ShipType, ha: bool, b: ShipType, hb: bool)
    requires ShipTileIndex(a, ha) == ShipTileIndex(b, hb)
    ensures a == b && ha == hb
  {
    assert a.Code() == b.Code();
  }

  /**
   * C#'s `a % Size`, which truncates toward zero (Dafny's `%` is Euclidean):
   * the remainder has the sign of `a`, is smaller than Size in magnitude, and
   * differs from `a` by a multiple of Size, which pins it.
   */
  function CsRemainder(a: int): (r: int)
    ensures a >= 0 ==> 0 <= r < Size && r == a % Size
    ensures a < 0 ==> -Size < r <= 0
    ensures (a - r) % Size == 0
  {
    if a >= 0 then a % Size else -((-a) % Size)
  }

  /**
   * The cell of SetMarker(int index, ...): `(index % Size, FloorToInt(index / Size))`.
   * Flooring division by a positive divisor is Dafny's `/`. On the cells of a
   * board this undoes CellIndex.
   */
  function MarkerCell(index: int): (c: Coord)
    ensures 0 <= index < CellCount ==> OnBoard(c) && CellIndex(c) == index
  {
    Coord(CsRemainder(index), index / Size)
  }

  /** CellIndex followed by MarkerCell gives back every cell of a board. */
  lemma IndexRoundTrip(c: Coord)
    requires OnBoard(c)
    ensures 0 <= CellIndex(c) < CellCount
    ensures MarkerCell(CellIndex(c)) == c
  {
  }

  /**
   * The Vector3Int overload of SetMarker: a radar marker is drawn 10 rows up,
   * on the opponent's board; the tile is the marker's palette entry.
   */
  function MarkerAt(c: Coord, marker: Marker, radar: bool): (d: MarkerDraw)
    ensures d.tile == marker.Code() && 10 <= d.tile <= 12
    ensures OnBoard(c) ==> (if radar then OnRadar(d.cell) else OnBoard(d.cell))
    ensures d.cell.x == c.x
    ensures d.cell.y == c.y + (if radar then Size else 0)
  {
    MarkerDraw(if radar then Coord(c.x, c.y + Size) else c, marker.Code())
  }

  /**
   * SetMarker(int index, marker, radar): the cell index is unflattened and the
   * marker drawn there. For an index in 0..99 it lands on the board the flag
   * selects, at the cell whose index, once the radar shift is undone, is the
   * given index.
   */
  function SetMarker(index: int, marker: Marker, radar: bool): (d: MarkerDraw)
    ensures d.tile == marker.Code()
    ensures 0 <= index < CellCount ==>
      (if radar then OnRadar(d.cell) else OnBoard(d.cell)) &&
      CellIndex(Coord(d.cell.x, if radar then d.cell.y - Size else d.cell.y)) == index
  {
    MarkerAt(MarkerCell(index), marker, radar)
  }

  /**
   * The cell TakeTurn receives for a pointer cell in Attack mode: the cell
   * clamped into the radar, then shifted down by one board. It is always a
   * cell of the own board, the cell one board above it is on the radar, and
   * a radar cell maps to the board cell it shows.
   */
  function AttackTarget(cell: Coord): (t: Coord)
    ensures OnBoard(t) && 0 <= CellIndex(t) < CellCount
    ensures OnRadar(Coord(t.x, t.y + Size))
    ensures OnRadar(cell) ==> t == Coord(cell.x, cell.y - Size)
  {
    var c := ClampCoord(cell, Coord(0, Size), Coord(Size - 1, 2 * Size - 1));
    Coord(c.x, c.y - Size)
  }

  /**
   * The map view: its input mode, the rectangle the pointer cell is clamped
   * into, and the cursor tile (None while no tile has been assigned).
   */
  class MapView {
    var mode: MapMode
    var minCoordinate: Coord
    var maxCoordinate: Coord
    var cursorTile: Option<int>

    /** The clamp rectangle is the board of the current mode. */
    ghost predicate Valid()
      reads this
    {
      && (mode == Place ==> minCoordinate == Coord(0, 0) && maxCoordinate == Coord(Size - 1, Size - 1))
      && (mode == Attack ==> minCoordinate == Coord(0, Size) && maxCoordinate == Coord(Size - 1, 2 * Size - 1))
    }

    /** A fresh view: the default mode (Disabled), zero bounds, no cursor tile. */
    constructor ()
      ensures Valid()
      ensures mode == Disabled && minCoordinate == Coord(0, 0) && maxCoordinate == Coord(0, 0)
      ensures cursorTile == None
    {
      mode := Disabled;
      minCoordinate, maxCoordinate := Coord(0, 0), Coord(0, 0);
      cursorTile := None;
    }

    method SetDisabled()
      modifies this
      ensures Valid()
      ensures mode == Disabled
      ensures minCoordinate == old(minCoordinate) && maxCoordinate == old(maxCoordinate)
      ensures cursorTile == old(cursorTile)
    {
      mode := Disabled;
    }

    method SetPlacementMode()
      modifies this
      ensures Valid()
      ensures mode == Place
      ensures minCoordinate == Coord(0, 0) && maxCoordinate == Coord(Size - 1, Size - 1)
      ensures cursorTile == old(cursorTile)
    {
      mode := Place;
      minCoordinate := Coord(0, 0);
      maxCoordinate := Coord(Size - 1, Size - 1);
    }

    method SetAttackMode()
      modifies this
      ensures Valid()
      ensures mode == Attack
      ensures minCoordinate == Coord(0, Size) && maxCoordinate == Coord(Size - 1, 2 * Size - 1)
      ensures cursorTile == Some(Target.Code())
    {
      mode := Attack;
      cursorTile := Some(Target.Code());
      minCoordinate := Coord(0, Size);
      maxCoordinate := Coord(Size - 1, Size + Size - 1);
    }

    method SetShipCursor(t: ShipType, horizontal: bool)
      modifies this
      ensures cursorTile == Some(ShipTileIndex(t, horizontal))
      ensures mode == old(mode) && minCoordinate == old(minCoordinate) && maxCoordinate == old(maxCoordinate)
    {
      cursorTile := Some(ShipTileIndex(t, horizontal));
    }

    /**
     * The pointer cell is clamped into the mode's rectangle and dispatched:
     * in Place mode to PlaceShip, always with a cell of the own board (a cell
     * already on it is passed as it is); in Attack mode to TakeTurn, shifted
     * down by a board, so that the target is a cell of the board with an
     * index in 0..99 (a radar cell is passed as the cell it shows); in
     * Disabled mode nowhere.
     */
    method Select(cell: Coord) returns (d: Dispatch)
      requires Valid()
      ensures mode == Disabled ==> d == NoAction
      ensures mode == Place ==> d.PlaceAt? && OnBoard(d.at)
      ensures mode == Place && OnBoard(cell) ==> d == PlaceAt(cell)
      ensures mode == Place ==> d == PlaceAt(ClampCoord(cell, Coord(0, 0), Coord(Size - 1, Size - 1)))
      ensures mode == Attack ==> d.TurnAt? && OnBoard(d.at) && 0 <= CellIndex(d.at) < CellCount
      ensures mode == Attack && OnRadar(cell) ==> d == TurnAt(Coord(cell.x, cell.y - Size))
      ensures mode == Attack ==> d == TurnAt(AttackTarget(cell))
    {
      var c := ClampCoord(cell, minCoordinate, maxCoordinate);
      match mode
      case Place =>
        d := PlaceAt(c);
      case Attack =>
        d := TurnAt(Coord(c.x, c.y - Size));
      case Disabled =>
        d := NoAction;
    }
  }

  /**
   * A shot chosen on the radar and reported back for the same index is drawn
   * on the radar cell that was selected: the unflattening of SetMarker undoes
   * the flattening of TakeTurn across the Attack-mode shift.
   */
  lemma RadarShotRoundTrip(cell: Coord, marker: Marker)
    requires OnRadar(cell)
    ensures var target := Coord(cell.x, cell.y - Size);
            SetMarker(CellIndex(target), marker, true).cell == cell
  {
    IndexRoundTrip(Coord(cell.x, cell.y - Size));
  }
}
