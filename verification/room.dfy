/**
 * The room wrapper around the transport (Assets/Scripts/ColyseusRoom.cs): the
 * current room handle, the one-shot "initial state received" guard, the
 * filter that turns field changes into phase notifications, the reconnect
 * loop with its counter and cancellation flag, and the events it raises.
 *
 * The transport is not modelled: what it returns (the room of a join, the
 * outcome of each reconnect attempt) is passed in, and what is sent to it is
 * recorded in `sent`. Raising an event is recorded in `emitted` together with
 * the listeners registered on that event at that moment.
 */
module Room {
  import opened Wrappers
  import opened RoomState

  /** Value the reconnect counter starts with and is reset to after a successful reconnect. */
  const ReconnectBudget := 3

  /** The only field whose changes are forwarded as phase notifications. */
  const PhaseField := "phase"

  /** A live room: its id, the local session id, and whether its connection is open. */
  datatype Handle = Handle(roomId: string, sessionId: string, isOpen: bool)

  /** A subscriber of an event, by identity. */
  type Listener = nat

  /** An event raised by the room, with the listeners it reached. */
  datatype Emitted =
    | Connected
    | JoinedRoom
    | InitialState(to: seq<Listener>, state: GameState)
    | PhaseChanged(to: seq<Listener>, phase: string)

  /** A message sent to the server room. */
  datatype Message = Place(placement: seq<int>) | Turn(targetIndex: int)

  /**
   * The notifications OnStateChange raises for a batch of changes: one per
   * change of the `phase` field, in batch order, carrying its value, each
   * reaching the given listeners; every other change is dropped.
   */
  function PhaseEvents(to: seq<Listener>, changes: seq<DataChange>): (r: seq<Emitted>)
    ensures forall j :: 0 <= j < |r| ==> r[j].PhaseChanged? && r[j].to == to
  {
    if changes == [] then []
    else
      var last := changes[|changes| - 1];
      PhaseEvents(to, changes[..|changes| - 1]) + (if last.field == PhaseField then [PhaseChanged(to, last.value)] else [])
  }

  /** There are exactly as many notifications as `phase` changes in the batch. */
  lemma {:induction false} PhaseEventsCount(to: seq<Listener>, changes: seq<DataChange>)
    ensures |PhaseEvents(to, changes)| == CountField(changes, PhaseField)
    decreases |changes|
  {
    if changes != [] {
      PhaseEventsCount(to, changes[..|changes| - 1]);
    }
  }

  /** Splitting a batch in two raises the same notifications in the same order. */
  lemma {:induction false} PhaseEventsAppend(to: seq<Listener>, a: seq<DataChange>, b: seq<DataChange>)
    ensures PhaseEvents(to, a + b) == PhaseEvents(to, a) + PhaseEvents(to, b)
    decreases |b|
  {
    if b != [] {
      var b' := b[..|b| - 1];
      assert (a + b)[..|a + b| - 1] == a + b';
      assert (a + b)[|a + b| - 1] == b[|b| - 1];
      PhaseEventsAppend(to, a, b');
    } else {
      assert a + b == a;
    }
  }

  /** The notifications of a batch prefix grow by at most the one for the next change. */
  lemma PhaseEventsStep(to: seq<Listener>, changes: seq<DataChange>, i: int)
    requires 0 <= i < |changes|
    ensures PhaseEvents(to, changes[..i + 1]) ==
      PhaseEvents(to, changes[..i]) +
      (if changes[i].field == PhaseField then [PhaseChanged(to, changes[i].value)] else [])
  {
    assert changes[..i + 1][..i] == changes[..i];
  }

  /** A batch of phase changes only raises exactly their values, in order. */
  lemma {:induction false} PhaseEventsOfPhaseChanges(to: seq<Listener>, changes: seq<DataChange>)
    requires forall k :: 0 <= k < |changes| ==> changes[k].field == PhaseField
    ensures PhaseEvents(to, changes) == seq(|changes|, k requires 0 <= k < |changes| => PhaseChanged(to, changes[k].value))
    decreases |changes|
  {
    if changes != [] {
      PhaseEventsOfPhaseChanges(to, changes[..|changes| - 1]);
    }
  }

  /** Reconnect attempt k (counted from 0) succeeds; outcomes beyond the given ones are failures. */
  predicate Succeeds(outcomes: seq<bool>, k: nat) {
    k < |outcomes| && outcomes[k]
  }

  /** The first of the first n attempts that succeeds, if any. */
  function FirstSuccess(outcomes: seq<bool>, n: nat): (r: Option<nat>)
    ensures r.Some? ==> r.value < n && Succeeds(outcomes, r.value)
    ensures r.Some? ==> forall k :: 0 <= k < r.value ==> !Succeeds(outcomes, k)
    ensures r.None? <==> forall k :: 0 <= k < n ==> !Succeeds(outcomes, k)
  {
    if n == 0 then None
    else
      match FirstSuccess(outcomes, n - 1)
      case Some(k) => Some(k)
      case None => if Succeeds(outcomes, n - 1) then Some(n - 1) else None
  }

  /**
   * The attempt at which a reconnect run recovers the room, given the room
   * handle it starts from and the counter value: none without a handle, since
   * reading the room id of a missing room throws inside the attempt.
   */
  function Recovery(room: Option<Handle>, budget: int, outcomes: seq<bool>): Option<nat> {
    if room.Some? && budget > 0 then FirstSuccess(outcomes, budget) else None
  }

  class ColyseusRoom {
    /** The joined room; None before a join and after leaving. */
    var room: Option<Handle>
    var initialStateReceived: bool
    /** A static field of the source class; the object is a singleton, so one field models it. */
    var reconnectTimes: int
    /** The cancellation source is created once with the object and never renewed. */
    var cancellationRequested: bool
    var initialStateListeners: seq<Listener>
    var phaseListeners: seq<Listener>
    var emitted: seq<Emitted>
    var sent: seq<Message>
    /** Position of the initial-state notification in `emitted`, or -1 while there is none. */
    ghost var initialAt: int

    /**
     * The counter stays within its budget. The initial-state event has been
     * raised exactly once, at `initialAt`, if the guard is set, and never
     * otherwise; every phase notification was raised after it.
     */
    ghost predicate Valid()
      reads this
    {
      && 0 <= reconnectTimes <= ReconnectBudget
      && (initialStateReceived <==> 0 <= initialAt < |emitted|)
      && (!initialStateReceived ==> initialAt == -1)
      && (initialStateReceived ==> emitted[initialAt].InitialState?)
      && (forall j :: 0 <= j < |emitted| && emitted[j].InitialState? ==> j == initialAt)
      && (forall j :: 0 <= j < |emitted| && emitted[j].PhaseChanged? ==> 0 <= initialAt < j)
    }

    constructor ()
      ensures Valid()
      ensures room == None && !initialStateReceived && !cancellationRequested
      ensures reconnectTimes == ReconnectBudget
      ensures initialStateListeners == [] && phaseListeners == []
      ensures emitted == [] && sent == []
    {
      room := None;
      initialStateReceived := false;
      reconnectTimes := ReconnectBudget;
      cancellationRequested := false;
      initialStateListeners, phaseListeners := [], [];
      emitted, sent := [], [];
      initialAt := -1;
    }

    /** The local session id; None without a room. */
    function SessionId(): (id: Option<string>)
      reads this
      ensures id.Some? <==> room.Some?
      ensures id.Some? ==> id.value == room.value.sessionId
    {
      if room.Some? then Some(room.value.sessionId) else None
    }

    /** Joined: there is a room and its connection is open; a joined wrapper has a session id. */
    function Joined(): (joined: bool)
      reads this
      ensures joined <==> room.Some? && room.value.isOpen
      ensures joined ==> SessionId().Some?
    {
      room.Some? && room.value.isOpen
    }

    /** onInitialState.AddListener. */
    method AddInitialStateListener(l: Listener)
      requires Valid()
      modifies this
      ensures Valid()
      ensures initialStateListeners == old(initialStateListeners) + [l]
      ensures room == old(room) && initialStateReceived == old(initialStateReceived)
      ensures reconnectTimes == old(reconnectTimes) && cancellationRequested == old(cancellationRequested)
      ensures phaseListeners == old(phaseListeners) && emitted == old(emitted) && sent == old(sent)
    {
      initialStateListeners := initialStateListeners + [l];
    }

    /** onGamePhaseChange.AddListener. */
    method AddPhaseListener(l: Listener)
      requires Valid()
      modifies this
      ensures Valid()
      ensures phaseListeners == old(phaseListeners) + [l]
      ensures room == old(room) && initialStateReceived == old(initialStateReceived)
      ensures reconnectTimes == old(reconnectTimes) && cancellationRequested == old(cancellationRequested)
      ensures initialStateListeners == old(initialStateListeners) && emitted == old(emitted) && sent == old(sent)
    {
      phaseListeners := phaseListeners + [l];
    }

    /** The client's connection opened: onConnect is raised. */
    method OnOpenHandler()
      requires Valid()
      modifies this
      ensures Valid()
      ensures emitted == old(emitted) + [Connected]
      ensures room == old(room) && initialStateReceived == old(initialStateReceived)
      ensures reconnectTimes == old(reconnectTimes) && cancellationRequested == old(cancellationRequested)
      ensures initialStateListeners == old(initialStateListeners) && phaseListeners == old(phaseListeners)
      ensures sent == old(sent)
    {
      emitted := emitted + [Connected];
    }

    /**
     * Join-or-create with the transport's answer: on success the room is
     * stored, both events are replaced by empty ones and onJoin is raised; a
     * failed join is only logged. Neither the counter nor the cancellation
     * flag is touched.
     */
    method JoinRoom(joined: Option<Handle>)
      requires Valid()
      modifies this
      ensures Valid()
      ensures joined.Some? ==> room == joined && initialStateListeners == [] && phaseListeners == []
      ensures joined.Some? ==> emitted == old(emitted) + [JoinedRoom]
      ensures joined.None? ==> room == old(room) && emitted == old(emitted)
      ensures joined.None? ==> initialStateListeners == old(initialStateListeners) && phaseListeners == old(phaseListeners)
      ensures initialStateReceived == old(initialStateReceived)
      ensures reconnectTimes == old(reconnectTimes) && cancellationRequested == old(cancellationRequested)
      ensures sent == old(sent)
    {
      if joined.Some? {
        room := joined;
        RegisterRoomEvent();
        RegisterRoomHandlers();
      }
    }

    /** The handle is cleared, so the room is no longer joined; nothing else changes. */
    twostate predicate LeftRoom()
      reads this
    {
      && room == None && !Joined()
      && initialStateReceived == old(initialStateReceived)
      && reconnectTimes == old(reconnectTimes) && cancellationRequested == old(cancellationRequested)
      && initialStateListeners == old(initialStateListeners) && phaseListeners == old(phaseListeners)
      && emitted == old(emitted) && sent == old(sent)
    }

    /** Leaving clears the handle (leaving with no room throws before, with the handle already clear). */
    method LeaveRoom()
      requires Valid()
      modifies this
      ensures Valid()
      ensures LeftRoom()
    {
      room := None;
    }

    /**
     * The messages are sent when there is a room and nothing is sent without
     * one; every other field is as it was.
     */
    twostate predicate SentOnly(messages: seq<Message>)
      reads this
    {
      && sent == old(sent) + (if room.Some? then messages else [])
      && room == old(room) && initialStateReceived == old(initialStateReceived)
      && reconnectTimes == old(reconnectTimes) && cancellationRequested == old(cancellationRequested)
      && initialStateListeners == old(initialStateListeners) && phaseListeners == old(phaseListeners)
      && emitted == old(emitted)
    }

    /** Sends the placement; without a room the call throws and nothing is sent. */
    method SendPlacement(placement: seq<int>)
      requires Valid()
      modifies this
      ensures Valid()
      ensures SentOnly([Place(placement)])
    {
      if room.Some? {
        sent := sent + [Place(placement)];
      }
    }

    /** Sends a turn; without a room the call throws and nothing is sent. */
    method SendTurn(targetIndex: int)
      requires Valid()
      modifies this
      ensures Valid()
      ensures SentOnly([Turn(targetIndex)])
    {
      if room.Some? {
        sent := sent + [Turn(targetIndex)];
      }
    }

    /**
     * Registration after a join or reconnect: the close and error signals are
     * armed (not modelled), OnStateChange is subscribed to the new room's
     * state (not modelled) and onJoin is raised, on every call.
     */
    method RegisterRoomHandlers()
      requires Valid()
      modifies this
      ensures Valid()
      ensures emitted == old(emitted) + [JoinedRoom]
      ensures room == old(room) && initialStateReceived == old(initialStateReceived)
      ensures reconnectTimes == old(reconnectTimes) && cancellationRequested == old(cancellationRequested)
      ensures initialStateListeners == old(initialStateListeners) && phaseListeners == old(phaseListeners)
      ensures sent == old(sent)
    {
      emitted := emitted + [JoinedRoom];
    }

    /** Both events are replaced by new ones that have no listeners. */
    method RegisterRoomEvent()
      requires Valid()
      modifies this
      ensures Valid()
      ensures initialStateListeners == [] && phaseListeners == []
      ensures room == old(room) && initialStateReceived == old(initialStateReceived)
      ensures reconnectTimes == old(reconnectTimes) && cancellationRequested == old(cancellationRequested)
      ensures emitted == old(emitted) && sent == old(sent)
    {
      initialStateListeners := [];
      phaseListeners := [];
    }

    /**
     * A full state from the transport. The first one ever flagged as first
     * state raises onInitialState and sets the guard, which nothing clears;
     * every other delivery changes nothing.
     */
    method OnRoomStateChangeHandler(state: GameState, isFirstState: bool)
      requires Valid()
      modifies this
      ensures Valid()
      ensures initialStateReceived == (old(initialStateReceived) || isFirstState)
      ensures isFirstState && !old(initialStateReceived) ==>
        emitted == old(emitted) + [InitialState(initialStateListeners, state)]
      ensures !(isFirstState && !old(initialStateReceived)) ==> emitted == old(emitted)
      ensures room == old(room) && reconnectTimes == old(reconnectTimes)
      ensures cancellationRequested == old(cancellationRequested)
      ensures initialStateListeners == old(initialStateListeners) && phaseListeners == old(phaseListeners)
      ensures sent == old(sent)
    {
      if isFirstState {
        if !initialStateReceived {
          initialStateReceived := true;
          initialAt := |emitted|;
          emitted := emitted + [InitialState(initialStateListeners, state)];
        }
      }
    }

    /**
     * A batch of field changes: nothing before the initial state; after it,
     * one phase notification per `phase` change, in batch order.
     */
    method OnStateChange(changes: seq<DataChange>)
      requires Valid()
      modifies this
      ensures Valid()
      ensures emitted == old(emitted) + (if initialStateReceived then PhaseEvents(phaseListeners, changes) else [])
      ensures room == old(room) && initialStateReceived == old(initialStateReceived)
      ensures reconnectTimes == old(reconnectTimes) && cancellationRequested == old(cancellationRequested)
      ensures initialStateListeners == old(initialStateListeners) && phaseListeners == old(phaseListeners)
      ensures sent == old(sent)
    {
      if !initialStateReceived {
        return;
      }
      var i := 0;
      while i < |changes|
        invariant 0 <= i <= |changes|
        invariant Valid()
        invariant emitted == old(emitted) + PhaseEvents(phaseListeners, changes[..i])
        invariant room == old(room) && initialStateReceived
        invariant reconnectTimes == old(reconnectTimes) && cancellationRequested == old(cancellationRequested)
        invariant initialStateListeners == old(initialStateListeners) && phaseListeners == old(phaseListeners)
        invariant sent == old(sent)
      {
        var change := changes[i];
        PhaseEventsStep(phaseListeners, changes, i);
        if change.field == PhaseField {
          RaisePhaseChange(change.value);
        }
        i := i + 1;
      }
      assert changes[..|changes|] == changes;
    }

    /** onGamePhaseChange is raised with the given phase, once the initial state has been received. */
    method RaisePhaseChange(phase: string)
      requires Valid() && initialStateReceived
      modifies this
      ensures Valid()
      ensures emitted == old(emitted) + [PhaseChanged(phaseListeners, phase)]
      ensures room == old(room) && initialStateReceived == old(initialStateReceived)
      ensures reconnectTimes == old(reconnectTimes) && cancellationRequested == old(cancellationRequested)
      ensures initialStateListeners == old(initialStateListeners) && phaseListeners == old(phaseListeners)
      ensures sent == old(sent)
    {
      emitted := emitted + [PhaseChanged(phaseListeners, phase)];
    }

    /**
     * The reconnect loop, run on a close or error signal, given the outcome of
     * each reconnect attempt it may make. It runs while cancellation has not
     * been requested. With the counter at 0 it requests cancellation and
     * stops; otherwise it makes one attempt, on success re-registers (fresh
     * events, onJoin raised again), sets the counter to 3 and requests
     * cancellation, and in every case then decrements the counter. The
     * returned count is the number of attempts made. The loop always ends
     * with cancellation requested, which is never withdrawn.
     */
    method ScheduleReconnectRoom(outcomes: seq<bool>) returns (attempts: nat)
      requires Valid()
      modifies this
      ensures Valid()
      ensures cancellationRequested
      ensures initialStateReceived == old(initialStateReceived) && sent == old(sent)
      ensures old(cancellationRequested) ==>
        attempts == 0 && room == old(room) && reconnectTimes == old(reconnectTimes) &&
        initialStateListeners == old(initialStateListeners) && phaseListeners == old(phaseListeners) &&
        emitted == old(emitted)
      ensures !old(cancellationRequested) && Recovery(old(room), old(reconnectTimes), outcomes).None? ==>
        attempts == old(reconnectTimes) && reconnectTimes == 0 && room == old(room) &&
        initialStateListeners == old(initialStateListeners) && phaseListeners == old(phaseListeners) &&
        emitted == old(emitted)
      ensures !old(cancellationRequested) && Recovery(old(room), old(reconnectTimes), outcomes).Some? ==>
        attempts == Recovery(old(room), old(reconnectTimes), outcomes).value + 1 &&
        reconnectTimes == ReconnectBudget - 1 &&
        room == Some(Handle(old(room).value.roomId, old(room).value.sessionId, true)) &&
        initialStateListeners == [] && phaseListeners == [] &&
        emitted == old(emitted) + [JoinedRoom]
    {
      attempts := 0;
      while !cancellationRequested
        invariant Valid()
        invariant initialStateReceived == old(initialStateReceived) && sent == old(sent)
        invariant old(cancellationRequested) ==>
          attempts == 0 && room == old(room) && reconnectTimes == old(reconnectTimes) &&
          initialStateListeners == old(initialStateListeners) && phaseListeners == old(phaseListeners) &&
          emitted == old(emitted)
        invariant !cancellationRequested ==>
          attempts <= old(reconnectTimes) && reconnectTimes == old(reconnectTimes) - attempts &&
          room == old(room) && emitted == old(emitted) &&
          initialStateListeners == old(initialStateListeners) && phaseListeners == old(phaseListeners) &&
          (room.Some? ==> forall k :: 0 <= k < attempts ==> !Succeeds(outcomes, k))
        invariant !old(cancellationRequested) && cancellationRequested && Recovery(old(room), old(reconnectTimes), outcomes).None? ==>
          attempts == old(reconnectTimes) && reconnectTimes == 0 && room == old(room) &&
          initialStateListeners == old(initialStateListeners) && phaseListeners == old(phaseListeners) &&
          emitted == old(emitted)
        invariant !old(cancellationRequested) && cancellationRequested && Recovery(old(room), old(reconnectTimes), outcomes).Some? ==>
          attempts == Recovery(old(room), old(reconnectTimes), outcomes).value + 1 &&
          reconnectTimes == ReconnectBudget - 1 &&
          room == Some(Handle(old(room).value.roomId, old(room).value.sessionId, true)) &&
          initialStateListeners == [] && phaseListeners == [] &&
          emitted == old(emitted) + [JoinedRoom]
        decreases if cancellationRequested then 0 else reconnectTimes + 1
      {
        if reconnectTimes <= 0 {
          cancellationRequested := true;
        } else {
          var k := attempts;
          attempts := attempts + 1;
          if room.Some? && Succeeds(outcomes, k) {
            room := Some(Handle(room.value.roomId, room.value.sessionId, true));
            reconnectTimes := ReconnectBudget;
            cancellationRequested := true;
            RegisterRoomEvent();
            RegisterRoomHandlers();
          }
          reconnectTimes := reconnectTimes - 1;
          // The retry delay is not modelled: it returns after the delay, or
          // throws at once when cancellation has been requested, which ends
          // the loop just as the loop condition does.
        }
      }
    }
  }
}
