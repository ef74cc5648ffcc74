/**
 * The shape of the synchronised room state (Assets/Scripts/GameRoomState.cs)
 * and of the field changes the transport reports for it.
 */
module RoomState {
  /** One seated player; only the seat number is read by the client. */
  datatype Player = Player(seat: int)

  /** A snapshot of the room's schema: players by session id, phase, turn, winner, shot codes. */
  datatype GameState = GameState(
    players: map<string, Player>,
    phase: string,
    playerTurn: int,
    winningPlayer: int,
    player1Shots: seq<int>,
    player2Shots: seq<int>)

  /** One reported field change; `value` is the new value as its ToString() renders it. */
  datatype DataChange = DataChange(field: string, value: string)

  /** How many changes of a batch are about the named field. */
  function CountField(changes: seq<DataChange>, field: string): (n: nat)
    ensures n <= |changes|
    ensures n == 0 <==> forall k :: 0 <= k < |changes| ==> changes[k].field != field
    ensures n == |changes| <==> forall k :: 0 <= k < |changes| ==> changes[k].field == field
  {
    if changes == [] then 0
    else
      var init := changes[..|changes| - 1];
      assert forall k :: 0 <= k < |init| ==> init[k] == changes[k];
      CountField(init, field) + (if changes[|changes| - 1].field == field then 1 else 0)
  }
}
