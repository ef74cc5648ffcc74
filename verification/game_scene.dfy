/**
 * The game controller (Assets/Scripts/GameSceneController.cs): the phase
 * and turn state machine over its mode, the ship placement that fills the
 * placement buffer in place, and the turn and placement messages it sends
 * through the room. Text labels are kept as the strings the controller shows;
 * buttons, scene loading and tile drawing are not modelled (leaving the
 * scene is the flag `left`).
 */
module GameScene {
  import opened Wrappers
  import opened Board
  import opened RoomState
  import opened ShipPlacement
  import Room

  /** The phase names the server uses. */
  const PhaseWaiting := "waiting"
  const PhasePlace := "place"
  const PhaseBattle := "battle"
  const PhaseResult := "result"

  /** The field whose changes re-run the turn check. */
  const TurnField := "playerTurn"

  /** The texts the controller shows. */
  const PlaceYourShipsText := "Place your ships"
  const WaitForPlacementText := "Waiting for opponent to place ships"
  const WaitForAttackText := "Waiting for opponent to attack"
  const TakeTurnText := "Take your turn!"
  const WinText := "You win!"
  const LossText := "You lost :("

  /** The marker for a shot code: 1 is a hit, every other code a miss. */
  function ShotMarker(value: int): (m: Marker)
    ensures m == Hit <==> value == 1
    ensures m != Target
  {
    if value == 1 then Hit else Miss
  }

  class GameSceneController {
    const mapView: MapView
    const room: Room.ColyseusRoom
    /** The placement buffer, allocated with 100 empty cells when the scene starts. */
    const placement: array<int>
    var mode: GameMode
    var shipPlaced: int
    var placeShipHorizontally: bool
    /** The synchronised state; None until the initial state has been handled. */
    var state: Option<GameState>
    var myPlayerNumber: int
    var message: string
    /** Set once the controller has left the room and asked for the connecting scene. */
    var left: bool

    /** The buffer has one cell per board cell, each empty or a ship code; at most five ships are placed. */
    ghost predicate Valid()
      reads this, placement, mapView, room
    {
      && placement.Length == CellCount
      && 0 <= shipPlaced <= FleetCount
      && (forall j :: 0 <= j < placement.Length ==> 0 <= placement[j] <= FleetCount)
      && mapView.Valid()
      && room.Valid()
    }

    /**
     * The controller as the scene starts: default field values (mode
     * Placement, no ship placed, vertical orientation, seat 0) and an empty
     * placement buffer.
     */
    constructor (view: MapView, r: Room.ColyseusRoom)
      requires view.Valid() && r.Valid()
      ensures Valid()
      ensures mapView == view && room == r && fresh(placement)
      ensures forall j :: 0 <= j < placement.Length ==> placement[j] == 0
      ensures mode == Placement && shipPlaced == 0 && !placeShipHorizontally
      ensures state == None && myPlayerNumber == 0 && message == "" && !left
    {
      mapView := view;
      room := r;
      var cells := new int[CellCount];
      var i := 0;
      while i < CellCount
        invariant 0 <= i <= CellCount
        invariant forall j :: 0 <= j < i ==> cells[j] == 0
      {
        cells[i] := 0;
        i := i + 1;
      }
      placement := cells;
      mode := Placement;
      shipPlaced := 0;
      placeShipHorizontally := false;
      state := None;
      myPlayerNumber := 0;
      message := "";
      left := false;
    }

    /** Shows the cursor of the ship to place next; after the fifth ship the cursor is kept. */
    method UpdateCursor()
      requires mapView.Valid()
      modifies mapView
      ensures mapView.Valid()
      ensures ShipFor(shipPlaced).Some? ==>
        mapView.cursorTile == Some(ShipTileIndex(ShipFor(shipPlaced).value.kind, placeShipHorizontally))
      ensures ShipFor(shipPlaced).None? ==> mapView.cursorTile == old(mapView.cursorTile)
      ensures mapView.mode == old(mapView.mode)
      ensures mapView.minCoordinate == old(mapView.minCoordinate) && mapView.maxCoordinate == old(mapView.maxCoordinate)
    {
      var ship := ShipFor(shipPlaced);
      if ship.Some? {
        mapView.SetShipCursor(ship.value.kind, placeShipHorizontally);
      }
    }

    /** Toggles the orientation of the next ship and updates its cursor. */
    method RotateShip()
      requires Valid()
      modifies this, mapView
      ensures Valid()
      ensures placeShipHorizontally == !old(placeShipHorizontally)
      ensures ShipFor(shipPlaced).Some? ==>
        mapView.cursorTile == Some(ShipTileIndex(ShipFor(shipPlaced).value.kind, placeShipHorizontally))
      ensures ShipFor(shipPlaced).None? ==> mapView.cursorTile == old(mapView.cursorTile)
      ensures mapView.mode == old(mapView.mode)
      ensures mode == old(mode) && shipPlaced == old(shipPlaced) && message == old(message)
      ensures state == old(state) && myPlayerNumber == old(myPlayerNumber) && left == old(left)
    {
      placeShipHorizontally := !placeShipHorizontally;
      UpdateCursor();
    }

    /** Entering the placement phase: mode Placement, the ship sequence restarted, the map in Place mode. */
    method BeginShipPlacement()
      requires Valid()
      modifies this, mapView
      ensures Valid()
      ensures mode == Placement && shipPlaced == 0 && message == PlaceYourShipsText
      ensures mapView.mode == Place && mapView.cursorTile == Some(ShipTileIndex(Destroyer, placeShipHorizontally))
      ensures placeShipHorizontally == old(placeShipHorizontally)
      ensures state == old(state) && myPlayerNumber == old(myPlayerNumber) && left == old(left)
    {
      mode := Placement;
      message := PlaceYourShipsText;
      shipPlaced := 0;
      mapView.SetPlacementMode();
      UpdateCursor();
    }

    method WaitForOpponentToPlace()
      requires Valid()
      modifies this, mapView
      ensures Valid()
      ensures mode == Placement && message == WaitForPlacementText && mapView.mode == Disabled
      ensures mapView.cursorTile == old(mapView.cursorTile)
      ensures shipPlaced == old(shipPlaced) && placeShipHorizontally == old(placeShipHorizontally)
      ensures state == old(state) && myPlayerNumber == old(myPlayerNumber) && left == old(left)
    {
      mode := Placement;
      mapView.SetDisabled();
      message := WaitForPlacementText;
    }

    method WaitForOpponentTurn()
      requires Valid()
      modifies this, mapView
      ensures Valid()
      ensures mode == Battle && message == WaitForAttackText && mapView.mode == Disabled
      ensures mapView.cursorTile == old(mapView.cursorTile)
      ensures mapView.minCoordinate == old(mapView.minCoordinate) && mapView.maxCoordinate == old(mapView.maxCoordinate)
      ensures shipPlaced == old(shipPlaced) && placeShipHorizontally == old(placeShipHorizontally)
      ensures state == old(state) && myPlayerNumber == old(myPlayerNumber) && left == old(left)
    {
      mode := Battle;
      mapView.SetDisabled();
      message := WaitForAttackText;
    }

    method StartTurn()
      requires Valid()
      modifies this, mapView
      ensures Valid()
      ensures mode == Battle && message == TakeTurnText
      ensures mapView.mode == Attack && mapView.cursorTile == Some(Target.Code())
      ensures shipPlaced == old(shipPlaced) && placeShipHorizontally == old(placeShipHorizontally)
      ensures state == old(state) && myPlayerNumber == old(myPlayerNumber) && left == old(left)
    {
      mode := Battle;
      mapView.SetAttackMode();
      message := TakeTurnText;
    }

    /**
     * What CheckTurn leaves behind: Battle mode with attacks enabled when the
     * turn is the local seat's, Battle mode with the map disabled otherwise;
     * without a state (reading it throws) nothing changes.
     */
    twostate predicate TurnChecked()
      reads this, mapView
    {
      && shipPlaced == old(shipPlaced) && placeShipHorizontally == old(placeShipHorizontally) && left == old(left)
      && (state.None? ==> mode == old(mode) && message == old(message) && unchanged(mapView))
      && (state.Some? && state.value.playerTurn == myPlayerNumber ==>
            mode == Battle && message == TakeTurnText &&
            mapView.mode == Attack && mapView.cursorTile == Some(Target.Code()))
      && (state.Some? && state.value.playerTurn != myPlayerNumber ==>
            mode == Battle && message == WaitForAttackText && mapView.mode == Disabled &&
            mapView.cursorTile == old(mapView.cursorTile) &&
            mapView.minCoordinate == old(mapView.minCoordinate) && mapView.maxCoordinate == old(mapView.maxCoordinate))
    }

    method CheckTurn()
      requires Valid()
      modifies this, mapView
      ensures Valid()
      ensures TurnChecked()
      ensures state == old(state) && myPlayerNumber == old(myPlayerNumber)
    {
      if state.None? {
        return;
      }
      if state.value.playerTurn == myPlayerNumber {
        StartTurn();
      } else {
        WaitForOpponentTurn();
      }
    }

    /**
     * What ShowResult leaves behind: Result mode; a win exactly when the
     * winning seat is the local one, with the map disabled. The mode is set
     * before the state is read, so without a state only the mode changes.
     */
    twostate predicate ResultShown()
      reads this, mapView
    {
      && mode == Result
      && shipPlaced == old(shipPlaced) && placeShipHorizontally == old(placeShipHorizontally) && left == old(left)
      && (state.None? ==> message == old(message) && unchanged(mapView))
      && (state.Some? ==>
            (message == WinText <==> state.value.winningPlayer == myPlayerNumber) &&
            (message == LossText <==> state.value.winningPlayer != myPlayerNumber) &&
            mapView.mode == Disabled && mapView.cursorTile == old(mapView.cursorTile))
    }

    method ShowResult()
      requires Valid()
      modifies this, mapView
      ensures Valid()
      ensures ResultShown()
      ensures state == old(state) && myPlayerNumber == old(myPlayerNumber)
    {
      mode := Result;
      if state.None? {
        return;
      }
      message := if state.value.winningPlayer == myPlayerNumber then WinText else LossText;
      mapView.SetDisabled();
    }

    /** Leaves the room and asks for the connecting scene. */
    method Leave()
      requires Valid()
      modifies this, room
      ensures Valid()
      ensures left && room.LeftRoom()
      ensures mode == old(mode) && shipPlaced == old(shipPlaced) && message == old(message)
      ensures placeShipHorizontally == old(placeShipHorizontally)
      ensures state == old(state) && myPlayerNumber == old(myPlayerNumber)
    {
      room.LeaveRoom();
      left := true;
    }

    /**
     * The effect of a phase notification: "waiting" leaves, "place" starts
     * the placement, "battle" checks the turn, "result" shows the result, and
     * any other phase changes nothing. The buffer is never touched.
     */
    twostate predicate PhaseHandled(phase: string)
      reads this, mapView, room
    {
      if phase == PhaseWaiting then
        && left && room.LeftRoom()
        && mode == old(mode) && shipPlaced == old(shipPlaced) && message == old(message)
        && placeShipHorizontally == old(placeShipHorizontally) && unchanged(mapView)
      else if phase == PhasePlace then
        && mode == Placement && shipPlaced == 0 && message == PlaceYourShipsText
        && mapView.mode == Place && mapView.cursorTile == Some(ShipTileIndex(Destroyer, placeShipHorizontally))
        && placeShipHorizontally == old(placeShipHorizontally) && left == old(left) && unchanged(room)
      else if phase == PhaseBattle then
        TurnChecked() && unchanged(room)
      else if phase == PhaseResult then
        ResultShown() && unchanged(room)
      else
        && mode == old(mode) && shipPlaced == old(shipPlaced) && message == old(message)
        && placeShipHorizontally == old(placeShipHorizontally) && left == old(left)
        && unchanged(mapView) && unchanged(room)
    }

    method GamePhaseChangeHandler(phase: string)
      requires Valid()
      modifies this, mapView, room
      ensures Valid()
      ensures PhaseHandled(phase)
      ensures state == old(state) && myPlayerNumber == old(myPlayerNumber)
    {
      if phase == PhaseWaiting {
        Leave();
      } else if phase == PhasePlace {
        BeginShipPlacement();
      } else if phase == PhaseBattle {
        CheckTurn();
      } else if phase == PhaseResult {
        ShowResult();
      }
    }

    /**
     * The initial state: it is kept, the local seat is looked up by the
     * room's session id (-1 when that id is not among the players, or there
     * is no room) and the state's phase is handled.
     */
    method InitialStateHandler(initialState: GameState)
      requires Valid()
      modifies this, mapView, room
      ensures Valid()
      ensures state == Some(initialState)
      ensures var id := old(room.SessionId());
              myPlayerNumber == if id.Some? && id.value in initialState.players then initialState.players[id.value].seat else -1
      ensures PhaseHandled(initialState.phase)
    {
      state := Some(initialState);
      var id := room.SessionId();
      myPlayerNumber := if id.Some? && id.value in initialState.players then initialState.players[id.value].seat else -1;
      GamePhaseChangeHandler(initialState.phase);
    }

    /**
     * A batch of changes to the state: the state read afterwards is the
     * patched one, and every `playerTurn` change in the batch runs the turn
     * check once. The number of checks run is returned.
     */
    method StateChangeHandler(patched: GameState, changes: seq<DataChange>) returns (checks: nat)
      requires Valid()
      modifies this, mapView
      ensures Valid()
      ensures state == Some(patched) && myPlayerNumber == old(myPlayerNumber)
      ensures checks == CountField(changes, TurnField)
      ensures checks > 0 ==> TurnChecked()
      ensures checks == 0 ==> mode == old(mode) && message == old(message) && unchanged(mapView)
      ensures shipPlaced == old(shipPlaced) && placeShipHorizontally == old(placeShipHorizontally) && left == old(left)
    {
      state := Some(patched);
      checks := 0;
      var i := 0;
      while i < |changes|
        invariant 0 <= i <= |changes|
        invariant Valid()
        invariant state == Some(patched) && myPlayerNumber == old(myPlayerNumber)
        invariant checks == CountField(changes[..i], TurnField)
        invariant checks > 0 ==> mode == Battle
        invariant checks > 0 && patched.playerTurn == myPlayerNumber ==>
          message == TakeTurnText && mapView.mode == Attack && mapView.cursorTile == Some(Target.Code())
        invariant checks > 0 && patched.playerTurn != myPlayerNumber ==>
          message == WaitForAttackText && mapView.mode == Disabled && mapView.cursorTile == old(mapView.cursorTile) &&
          mapView.minCoordinate == old(mapView.minCoordinate) && mapView.maxCoordinate == old(mapView.maxCoordinate)
        invariant checks == 0 ==> mode == old(mode) && message == old(message) && unchanged(mapView)
        invariant shipPlaced == old(shipPlaced) && placeShipHorizontally == old(placeShipHorizontally) && left == old(left)
      {
        assert changes[..i + 1][..i] == changes[..i];
        if changes[i].field == TurnField {
          CheckTurn();
          checks := checks + 1;
        }
        i := i + 1;
      }
      assert changes[..|changes|] == changes;
    }

    /**
     * A shot of player 1 at cell `key`: a hit marker for code 1, a miss
     * otherwise, drawn on the radar exactly when the local player is player 1
     * (it is their own shot) and on the own board otherwise.
     */
    function ShotChangedPlayer1(key: int, value: int): (d: MarkerDraw)
      reads this
      ensures d.tile == ShotMarker(value).Code()
      ensures d.tile == Hit.Code() <==> value == 1
      ensures 0 <= key < CellCount ==> (OnRadar(d.cell) <==> myPlayerNumber == 1)
      ensures 0 <= key < CellCount ==> (OnBoard(d.cell) <==> myPlayerNumber != 1)
      ensures 0 <= key < CellCount ==>
        CellIndex(Coord(d.cell.x, if myPlayerNumber == 1 then d.cell.y - Size else d.cell.y)) == key
    {
      SetMarker(key, ShotMarker(value), myPlayerNumber == 1)
    }

    /** A shot of player 2, drawn on the radar exactly when the local player is player 2. */
    function ShotChangedPlayer2(key: int, value: int): (d: MarkerDraw)
      reads this
      ensures d.tile == ShotMarker(value).Code()
      ensures d.tile == Hit.Code() <==> value == 1
      ensures 0 <= key < CellCount ==> (OnRadar(d.cell) <==> myPlayerNumber == 2)
      ensures 0 <= key < CellCount ==> (OnBoard(d.cell) <==> myPlayerNumber != 2)
      ensures 0 <= key < CellCount ==>
        CellIndex(Coord(d.cell.x, if myPlayerNumber == 2 then d.cell.y - Size else d.cell.y)) == key
    {
      SetMarker(key, ShotMarker(value), myPlayerNumber == 2)
    }

    /**
     * SetPlacementCell: true when the cell's index lies in the buffer and
     * holds no ship; unless only testing, the cell then takes the ship's code.
     */
    method SetPlacementCell(c: Coord, kind: ShipType, testOnly: bool) returns (ok: bool)
      requires placement.Length == CellCount
      modifies placement
      ensures ok == CellFree(old(placement[..]), c)
      ensures placement[..] == if ok && !testOnly then old(placement[..])[CellIndex(c) := kind.Code()] else old(placement[..])
    {
      var cellIndex := c.y * Size + c.x;
      if cellIndex < 0 || cellIndex >= CellCount {
        return false;
      }
      if placement[cellIndex] > 0 {
        return false;
      }
      if testOnly {
        return true;
      }
      placement[cellIndex] := kind.Code();
      return true;
    }

    /** PlaceShip's dry run: SetPlacementCell in test mode on each cell of the run, stopping at the first refusal. */
    method TestRun(c: Coord, size: nat, horizontal: bool, kind: ShipType) returns (free: bool)
      requires placement.Length == CellCount
      modifies placement
      ensures free == RunFree(old(placement[..]), c, size, horizontal)
      ensures placement[..] == old(placement[..])
    {
      var i := 0;
      while i < size
        invariant 0 <= i <= size
        invariant placement[..] == old(placement[..])
        invariant forall k :: 0 <= k < i ==> CellFree(old(placement[..]), RunCell(c, k, horizontal))
      {
        var ok := SetPlacementCell(RunCell(c, i, horizontal), kind, true);
        if !ok {
          return false;
        }
        i := i + 1;
      }
      return true;
    }

    /**
     * PlaceShip's second pass: SetPlacementCell on each cell of a free run.
     * Each cell is still free when its turn comes, so every write happens and
     * the run ends up holding the ship's code.
     */
    method WriteRun(c: Coord, size: nat, horizontal: bool, kind: ShipType)
      requires placement.Length == CellCount
      requires RunFree(placement[..], c, size, horizontal)
      modifies placement
      ensures placement[..] == Occupy(old(placement[..]), c, size, horizontal, kind.Code())
    {
      assert RunIndices(c, 0, horizontal) == {};
      assert placement[..] == Occupy(old(placement[..]), c, 0, horizontal, kind.Code());
      var i := 0;
      while i < size
        invariant 0 <= i <= size
        invariant placement[..] == Occupy(old(placement[..]), c, i, horizontal, kind.Code())
      {
        ghost var before := placement[..];
        var cell := RunCell(c, i, horizontal);
        assert CellIndex(cell) !in RunIndices(c, i, horizontal) by {
          forall k | 0 <= k < i
            ensures CellIndex(RunCell(c, k, horizontal)) != CellIndex(cell)
          {
            RunIndicesDistinct(c, horizontal, k, i);
          }
        }
        assert CellFree(before, cell);
        var ok := SetPlacementCell(cell, kind, false);
        assert RunIndices(c, i + 1, horizontal) == RunIndices(c, i, horizontal) + {CellIndex(cell)};
        i := i + 1;
      }
    }

    /**
     * The effect of placing the current ship at the anchor, all or nothing.
     * When PlaceOutcome refuses, nothing changes. Otherwise the buffer
     * becomes PlaceOutcome's, one more ship is placed and the cursor shows
     * the next one; the fifth ship sends the buffer once (only the room's
     * `sent` changes) and waits for the opponent, after which PlaceShip does
     * nothing until the next placement phase.
     */
    twostate predicate ShipPlacedAt(c: Coord)
      reads this, placement, mapView, room
    {
      var outcome := PlaceOutcome(old(mode), old(shipPlaced), old(placeShipHorizontally), old(placement[..]), c);
      && placeShipHorizontally == old(placeShipHorizontally) && left == old(left)
      && state == old(state) && myPlayerNumber == old(myPlayerNumber)
      && (outcome.None? ==>
            placement[..] == old(placement[..]) && shipPlaced == old(shipPlaced) &&
            mode == old(mode) && message == old(message) && unchanged(mapView) && unchanged(room))
      && (outcome.Some? ==> placement[..] == outcome.value && shipPlaced == old(shipPlaced) + 1)
      && (outcome.Some? && shipPlaced < FleetCount ==>
            mode == old(mode) && message == old(message) && unchanged(room) &&
            mapView.mode == old(mapView.mode) &&
            mapView.cursorTile == Some(ShipTileIndex(ShipFor(shipPlaced).value.kind, placeShipHorizontally)))
      && (outcome.Some? && shipPlaced == FleetCount ==>
            room.SentOnly([Room.Place(placement[..])]) &&
            mode == Placement && message == WaitForPlacementText && mapView.mode == Disabled)
    }

    method PlaceShip(c: Coord)
      requires Valid()
      modifies this, placement, mapView, room
      ensures Valid()
      ensures ShipPlacedAt(c)
    {
      if mode != Placement {
        return;
      }
      var ship := ShipFor(shipPlaced);
      if ship.None? {
        return;
      }
      var size, kind := ship.value.size, ship.value.kind;
      var horizontal := placeShipHorizontally;
      var shipWidth := if horizontal then size else 1;
      var shipHeight := if horizontal then 1 else size;

      if c.x < 0 || c.x + (shipWidth - 1) > Size || c.y - (shipHeight - 1) < 0 {
        return;
      }

      var free := TestRun(c, size, horizontal, kind);
      if !free {
        return;
      }
      WriteRun(c, size, horizontal, kind);

      shipPlaced := shipPlaced + 1;
      UpdateCursor();

      if shipPlaced == FleetCount {
        room.SendPlacement(placement[..]);
        WaitForOpponentToPlace();
      }
    }

    /** Sends a turn at the flattened index `y * 10 + x`; the mode is not checked. */
    method TakeTurn(c: Coord)
      requires Valid()
      modifies room
      ensures Valid()
      ensures room.SentOnly([Room.Turn(CellIndex(c))])
    {
      var targetIndex := c.y * Size + c.x;
      room.SendTurn(targetIndex);
    }

    /**
     * A click on the map, dispatched through the map view's Select: nothing
     * in Disabled mode; in Attack mode one turn message at the clamped and
     * shifted cell, whose index is that of a board cell, and nothing else
     * changed; in Place mode the placement of the current ship at the cell
     * clamped to the own board.
     */
    method OnSelect(cell: Coord)
      requires Valid()
      modifies this, placement, mapView, room
      ensures Valid()
      ensures old(mapView.mode) == Disabled ==>
        unchanged(this) && unchanged(placement) && unchanged(mapView) && unchanged(room)
      ensures old(mapView.mode) == Attack ==>
        unchanged(this) && unchanged(placement) && unchanged(mapView) &&
        room.SentOnly([Room.Turn(CellIndex(AttackTarget(cell)))])
      ensures old(mapView.mode) == Place ==>
        ShipPlacedAt(ClampCoord(cell, Coord(0, 0), Coord(Size - 1, Size - 1)))
    {
      var d := mapView.Select(cell);
      match d
      case PlaceAt(at) =>
        PlaceShip(at);
      case TurnAt(at) =>
        TakeTurn(at);
      case NoAction =>
    }
  }
}
