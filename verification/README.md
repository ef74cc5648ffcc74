# Battleship client core, modelled in Dafny

This project models the game logic of a Unity battleship client that plays against a Colyseus
room server. It covers three parts of the client.

- **Map view** (`board.dfy`, module `Board`). This covers:
  - the 10×10 own board on rows 0..9 and the opponent's board (the "radar") on rows 10..19;
  - the per-mode clamp rectangles and the dispatch of a selected cell;
  - the row shift of the attack board;
  - the flattening `y*10 + x` of a cell and its inverse in `SetMarker`;
  - the palette indices of ship and marker tiles.
- **Room wrapper** (`room.dfy`, module `Room`, over the state shape in `room_state.dfy`). This covers:
  - the room handle;
  - the one-shot "initial state received" guard;
  - the filter that turns field changes into phase notifications;
  - the reconnect loop with its static counter and its cancellation flag, which is never renewed;
  - the events the wrapper raises, and the messages it sends.
- **Game controller** (`game_scene.dfy`, module `GameScene`, with the placement rules as functions in
  `ship_placement.dfy`, module `ShipPlacement`). This covers:
  - the 100-cell placement buffer, an `array<int>` filled in place by a dry-run pass and then a commit pass;
  - the fixed sequence of five ships;
  - the phase and turn state machine;
  - the seat lookup;
  - the turn index that is sent.

The transport is not called. Each place where the code would call it is handled in one of two ways:
- What the transport returns is passed in as a parameter. This covers the room of a join and the outcome of each reconnect attempt.
- What is handed to the transport is recorded in the room's `sent` field.

Raised events are recorded in `emitted`. The initial-state and phase notifications carry the listeners registered on their event at that moment. `Connected` and `JoinedRoom` carry none, because listeners of onConnect and onJoin are not modelled. Leaving the game scene is the flag `left`.

A C# `NullReferenceException` has two forms in the model:
- A call that throws after changing some fields keeps those changes. For example, `ShowResult` sets the mode before it reads a missing state.
- A call that throws before changing anything changes nothing.

In several places the code behaves differently from what one would expect of the game. The model follows the code:

- One would expect a horizontal Destroyer anchored at (9, 0) to be refused, since its second cell would be off the board. The code accepts it. The bounds test allows a run to end at x = 10. That last cell flattens to index 10, which is cell (0, 1). `ShipPlacement.DestroyerAtNineZeroAccepted` proves that a Destroyer placed there on an empty buffer occupies cells 9 and 10. A run that wraps is refused only when its index reaches 100 (`ShipPlacement.WrapPastLastRowRefused`).
- One would expect a successful reconnect to reset the counter to 3 without announcing a new join. The code differs in two ways:
  - It leaves the counter at 2: the counter is set to 3 and then decremented.
  - It raises `onJoin` again.
- Every join and every successful reconnect replaces both events with new ones that have no listeners. The listeners registered before are dropped, so they do not survive a reconnect.
- A second "place" phase restarts the ship sequence but does not clear the buffer. Cells from the earlier round stay occupied.
- The cancellation flag is set once and never renewed. After the first reconnect run ends, every later run exits at once.

## Model

| member | source | states |
|---|---|---|
| Board.ClampCoord | Assets/Scripts/MapView.cs:81 | the clamped cell lies in the rectangle, a cell inside is kept, and a coordinate below or above a bound is moved to that bound |
| Board.ShipTileIndex | Assets/Scripts/MapView.cs:133-144 | the ship tile index is in 0..9, below the marker tiles; index / 2 + 1 is the ship's code and its parity is the orientation |
| Board.ShipTileIndexInjective | Assets/Scripts/MapView.cs:133-144 | two ship tiles are equal only for the same kind and orientation |
| Board.CsRemainder | Assets/Scripts/MapView.cs:148 | C#'s truncating `index % 10`: the remainder has the sign of the index, magnitude below 10, and differs from the index by a multiple of 10, which pins it; for a non-negative index it is the Euclidean remainder |
| Board.MarkerCell | Assets/Scripts/MapView.cs:146-151 | an index in 0..99 is unflattened to a cell of the own board whose flattened index is that index |
| Board.IndexRoundTrip | Assets/Scripts/MapView.cs:148 | unflattening undoes `y*10 + x` on every board cell |
| Board.MarkerAt | Assets/Scripts/MapView.cs:153-161 | the tile is the marker's palette entry 10..12; the cell keeps its column and moves up exactly 10 rows for a radar marker and not at all otherwise, so a board cell lands on the radar or on the board accordingly |
| Board.SetMarker | Assets/Scripts/MapView.cs:146-151 | for an index in 0..99 the marker lands on the radar (radar) or board cell whose unshifted index is that index, with the marker's tile |
| Board.MapView.constructor | Assets/Scripts/MapView.cs:38-52 | a new view is Disabled with zero bounds and no cursor tile |
| Board.MapView.SetDisabled | Assets/Scripts/MapView.cs:112-116 | mode Disabled; bounds and cursor tile kept |
| Board.MapView.SetPlacementMode | Assets/Scripts/MapView.cs:118-123 | mode Place with bounds (0,0)-(9,9); cursor tile kept |
| Board.MapView.SetAttackMode | Assets/Scripts/MapView.cs:125-131 | mode Attack with bounds (0,10)-(9,19) and the Target tile (10) as cursor |
| Board.MapView.SetShipCursor | Assets/Scripts/MapView.cs:133-137 | the cursor becomes the ship's tile; mode and bounds kept |
| Board.MapView.Select | Assets/Scripts/MapView.cs:75-97 | Disabled dispatches nothing; Place dispatches PlaceShip with the cell clamped into (0,0)-(9,9) (an own-board cell unchanged); Attack dispatches TakeTurn with AttackTarget of the cell: clamped into (0,10)-(9,19), then shifted down 10 rows |
| Board.AttackTarget | Assets/Scripts/MapView.cs:81-89 | the Attack-mode target is always a board cell with an index in 0..99, one board below a radar cell, and a radar cell maps to exactly the board cell it shows |
| Board.RadarShotRoundTrip | Assets/Scripts/MapView.cs:146-161 | a radar cell sent as a turn index and reported back with SetMarker(radar) is drawn on the same radar cell |
| RoomState.CountField | Assets/Scripts/GameSceneController.cs:308 | the number of changes of a field is at most the batch length, 0 iff none has that field, the length iff all do |
| Room.PhaseEvents | Assets/Scripts/ColyseusRoom.cs:154-157 | every forwarded notification is a phase change reaching the phase listeners |
| Room.PhaseEventsCount | Assets/Scripts/ColyseusRoom.cs:154-157 | exactly one notification per `phase` change; other fields are dropped |
| Room.PhaseEventsAppend | Assets/Scripts/ColyseusRoom.cs:154-157 | forwarding is in batch order: a split batch yields the two parts' notifications concatenated |
| Room.PhaseEventsOfPhaseChanges | Assets/Scripts/ColyseusRoom.cs:154-157 | a batch of phase changes is forwarded as exactly their values, in order |
| Room.FirstSuccess | Assets/Scripts/ColyseusRoom.cs:94-121 | the first successful attempt among the first n, and none iff all n fail |
| Room.ColyseusRoom.constructor | Assets/Scripts/ColyseusRoom.cs:24-35 | no room, guard clear, counter 3, cancellation not requested, no listeners, nothing raised or sent |
| Room.ColyseusRoom.SessionId | Assets/Scripts/ColyseusRoom.cs:27 | the session id exists iff there is a room, and is that room's session id |
| Room.ColyseusRoom.Joined | Assets/Scripts/ColyseusRoom.cs:31 | joined iff there is a room and its connection is open; a joined wrapper has a session id |
| Room.ColyseusRoom.AddInitialStateListener | Assets/Scripts/ColyseusRoom.cs:19 | the listener is appended to onInitialState; nothing else changes |
| Room.ColyseusRoom.AddPhaseListener | Assets/Scripts/ColyseusRoom.cs:20 | the listener is appended to onGamePhaseChange; nothing else changes |
| Room.ColyseusRoom.OnOpenHandler | Assets/Scripts/ColyseusRoom.cs:65-68 | onConnect is raised; nothing else changes |
| Room.ColyseusRoom.JoinRoom | Assets/Scripts/ColyseusRoom.cs:37-51 | a successful join stores the room, empties both events and raises onJoin; a failed one changes nothing; counter and cancellation untouched |
| Room.ColyseusRoom.LeaveRoom | Assets/Scripts/ColyseusRoom.cs:53-57 | the handle is cleared, so the wrapper is not Joined and has no session id; nothing else changes |
| Room.ColyseusRoom.SendPlacement | Assets/Scripts/ColyseusRoom.cs:59 | with a room, one placement message carrying the buffer is sent; without one nothing is; every other field is kept |
| Room.ColyseusRoom.SendTurn | Assets/Scripts/ColyseusRoom.cs:61 | with a room, one turn message carrying the index is sent; without one nothing is; every other field is kept |
| Room.ColyseusRoom.RegisterRoomHandlers | Assets/Scripts/ColyseusRoom.cs:70-76 | onJoin is raised again on every registration |
| Room.ColyseusRoom.RegisterRoomEvent | Assets/Scripts/ColyseusRoom.cs:162-166 | both events are replaced by listener-less ones; nothing else changes |
| Room.ColyseusRoom.OnRoomStateChangeHandler | Assets/Scripts/ColyseusRoom.cs:133-148 | onInitialState is raised only for a first state while the guard is clear; the guard is then set and never cleared, and the preserved invariant keeps the event raised at most once, before every phase notification |
| Room.ColyseusRoom.OnStateChange | Assets/Scripts/ColyseusRoom.cs:150-158 | nothing before the initial state; afterwards exactly PhaseEvents of the batch is raised, in order |
| Room.ColyseusRoom.RaisePhaseChange | Assets/Scripts/ColyseusRoom.cs:156 | one phase notification to the current listeners, only after the initial state |
| Room.ColyseusRoom.ScheduleReconnectRoom | Assets/Scripts/ColyseusRoom.cs:92-124 | always ends cancelled. If already cancelled: no attempt and no change. Without recovery: as many attempts as the counter held, counter 0, nothing else changed. On recovery at attempt k: k+1 attempts, counter 2, the room reopened with the same ids, both events emptied and onJoin raised once more |
| GameScene.ShotMarker | Assets/Scripts/GameSceneController.cs:316 | value 1 is a hit, any other value a miss, never the target |
| ShipPlacement.ShipFor | Assets/Scripts/GameSceneController.cs:165-192 | a ship exists iff 0..4 ships are placed; ship k has code k+1 and length [2,3,3,4,5][k] |
| ShipPlacement.RunCell | Assets/Scripts/GameSceneController.cs:203-227 | cell i of a run stays in the anchor's row (horizontal) or column (vertical), and its flattened index is the anchor's plus i, or minus i rows |
| ShipPlacement.PassesBoundsTest | Assets/Scripts/GameSceneController.cs:194-201 | for a ship of at least one cell: the test passes iff the anchor column is not negative, the run's last cell is at most at column 10 (one past the board) and not below row 0 |
| ShipPlacement.CellFree | Assets/Scripts/GameSceneController.cs:278-281 | a cell whose flattened index is outside the buffer is never free; on the 100-cell buffer a board cell is free iff it holds no ship code |
| ShipPlacement.PlaceOutcome | Assets/Scripts/GameSceneController.cs:161-227 | a placement is accepted iff the mode is Placement, 0..4 ships are placed, the bounds test passes and every run cell is free; an accepted one keeps the buffer length |
| ShipPlacement.RunIndicesCount | Assets/Scripts/GameSceneController.cs:203-227 | the run of a ship of length n covers n distinct buffer indices |
| ShipPlacement.AcceptedPlacement | Assets/Scripts/GameSceneController.cs:203-227 | an accepted placement writes exactly the run's cells, all in the buffer and free before, with the ship's code, and keeps every other cell |
| ShipPlacement.PlacementGrowsFleet | Assets/Scripts/GameSceneController.cs:203-227 | an accepted run does not overlap any ship, and the occupied cells grow by exactly the run, i.e. by the ship's length |
| ShipPlacement.PlacementKeepsCodes | Assets/Scripts/GameSceneController.cs:276-287 | every buffer cell stays empty or a ship code 1..5 |
| ShipPlacement.HorizontalRunWraps | Assets/Scripts/GameSceneController.cs:198 | a horizontal run ending at x = 10 passes the bounds test and its last cell flattens to the first cell of the next row |
| ShipPlacement.WrapPastLastRowRefused | Assets/Scripts/GameSceneController.cs:278-280 | such a run on the top row reaches index 100 and is refused |
| ShipPlacement.DestroyerAtNineZeroAccepted | Assets/Scripts/GameSceneController.cs:194-227 | a horizontal Destroyer at (9,0) on an empty buffer is accepted and occupies cells 9 and 10 |
| GameScene.GameSceneController.constructor | Assets/Scripts/GameSceneController.cs:84-90 | the buffer is 100 fresh empty cells; mode Placement, no ship placed, no state |
| GameScene.GameSceneController.UpdateCursor | Assets/Scripts/GameSceneController.cs:254-274 | the cursor shows the next ship in the current orientation; after the fifth ship it is kept |
| GameScene.GameSceneController.RotateShip | Assets/Scripts/GameSceneController.cs:240-243 | the orientation flips and the cursor follows it; nothing else changes |
| GameScene.GameSceneController.BeginShipPlacement | Assets/Scripts/GameSceneController.cs:120-127 | mode Placement, ship sequence restarted at 0, map in Place mode with the Destroyer cursor |
| GameScene.GameSceneController.WaitForOpponentToPlace | Assets/Scripts/GameSceneController.cs:129-134 | mode Placement with the map disabled and the waiting text |
| GameScene.GameSceneController.WaitForOpponentTurn | Assets/Scripts/GameSceneController.cs:136-141 | mode Battle with the map disabled and the waiting text |
| GameScene.GameSceneController.StartTurn | Assets/Scripts/GameSceneController.cs:143-148 | mode Battle with the map in Attack mode and the turn text |
| GameScene.GameSceneController.CheckTurn | Assets/Scripts/GameSceneController.cs:326-336 | attack-enabled Battle iff the turn is the local seat's, disabled Battle otherwise; without a state nothing changes |
| GameScene.GameSceneController.ShowResult | Assets/Scripts/GameSceneController.cs:150-157 | mode Result; a win text iff the winner is the local seat, a loss text otherwise, map disabled |
| GameScene.GameSceneController.Leave | Assets/Scripts/GameSceneController.cs:338-342 | the room is left (handle cleared) and the scene is left |
| GameScene.GameSceneController.GamePhaseChangeHandler | Assets/Scripts/GameSceneController.cs:344-361 | "waiting" leaves, "place" restarts placement, "battle" checks the turn, "result" shows the result, any other phase changes nothing; the buffer is never touched |
| GameScene.GameSceneController.InitialStateHandler | Assets/Scripts/GameSceneController.cs:291-304 | the state is kept; the seat is the session's player's seat, -1 when the session id is not among the players; then the state's phase is handled |
| GameScene.GameSceneController.StateChangeHandler | Assets/Scripts/GameSceneController.cs:306-312 | one turn check per `playerTurn` change in the batch; none when there is none |
| GameScene.GameSceneController.ShotChangedPlayer1 | Assets/Scripts/GameSceneController.cs:314-318 | the tile is ShotMarker's (Hit for code 1, Miss otherwise); for a key in 0..99 the marker is drawn on the radar iff the local seat is 1, else on the own board, at the cell whose unshifted index is the key |
| GameScene.GameSceneController.ShotChangedPlayer2 | Assets/Scripts/GameSceneController.cs:320-324 | the tile is ShotMarker's (Hit for code 1, Miss otherwise); for a key in 0..99 the marker is drawn on the radar iff the local seat is 2, else on the own board, at the cell whose unshifted index is the key |
| GameScene.GameSceneController.SetPlacementCell | Assets/Scripts/GameSceneController.cs:276-287 | true iff the flattened index is in the buffer and holds no ship; only then, and not in test mode, the cell takes the ship's code |
| GameScene.GameSceneController.TestRun | Assets/Scripts/GameSceneController.cs:203-215 | the dry run reports whether every run cell is free and changes no cell |
| GameScene.GameSceneController.WriteRun | Assets/Scripts/GameSceneController.cs:217-227 | on a free run every write succeeds and the buffer becomes the buffer with the run set to the ship's code |
| GameScene.GameSceneController.PlaceShip | Assets/Scripts/GameSceneController.cs:161-238 | all or nothing: a refused placement changes nothing; an accepted one sets the buffer to PlaceOutcome's, adds one ship and moves the cursor; the fifth sends the buffer once, changing nothing else in the room, and waits for the opponent |
| GameScene.GameSceneController.TakeTurn | Assets/Scripts/GameSceneController.cs:245-250 | one turn message with index y*10 + x when there is a room; nothing else in the room changes |
| GameScene.GameSceneController.OnSelect | Assets/Scripts/MapView.cs:83-96 | a click does nothing when disabled; in Attack mode it sends one turn at the index of AttackTarget (0..99) and changes nothing else; in Place mode it has exactly PlaceShip's effect at the cell clamped to the own board |

## Left out

- Rendering and input are not modelled: tile maps, the camera, `Update`, the input callbacks, texts and buttons. The onConnect and onJoin listeners are not modelled either; those events are recorded without them. `Select` takes the grid cell the pointer is over, and `SetShip` draws only a tile, whose index is `ShipTileIndex`.
- `Mathf.FloorToInt(index * 1.0f / Size)` is modelled as integer division, which is exact for the indices 0..99 that reach it.
- Scene loading is the flag `left`. The `Start` wiring is not modelled: the client check, the listener registration and the replay of an already present state. Listeners are identities passed to the `Add*Listener` methods. `OnDestroy` and `OnApplicationQuit` are not modelled either.
- The transport is not modelled: `JoinOrCreate`, `Reconnect`, `Send`, `Leave` and the close and error signals. The results of a join and of each reconnect attempt are parameters. `Send` and `Leave` take no outcome: a send with a room is recorded in `sent`, and `LeaveRoom` assumes that leaving completes, so it always clears the handle. A failing `Leave` or `Send` is not modelled. The subscription of `OnStateChange` to a room's state and of the controller's handlers to `_state` is not modelled. The controller's handlers are called directly, and `StateChangeHandler` receives the already patched state.
- `async void`, the five-second `Task.Delay` and threads are not modelled. One reconnect run is one method call. Concurrent runs are not modelled.
- GameScene.GameSceneController.InitialStateHandler: a missing session id (no room) is treated as a player lookup miss, giving seat -1. The schema map's behaviour for a null key is not part of this model.
- The int16 width of `playerTurn`, `winningPlayer` and the shot codes is not modelled. They are unbounded integers.
- A null phase string is not modelled: phases are strings.
