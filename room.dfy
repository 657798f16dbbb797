// The `GameRoom` actor (packages/server/src/room.ts) as a class whose
// handlers update its fields in place. The Durable Object runtime is
// replaced by three fields: `storage` is the snapshot `persistState` writes,
// `alarmAt` the pending `setAlarm` deadline and `outbox` the frames sent to
// sockets. Every method is proved to leave the object in the state the
// matching transition function of RoomSpec prescribes, so the properties
// proved in RoomInvariant and RoomProps hold of the class.

module Room {
  import opened Types
  import opened Constants
  import opened Messages
  import opened Keyed
  import opened RoomSpec

  class GameRoom {
    var state: Option<RoomState>
    var sessions: seq<Session>
    var storage: Option<RoomState>
    var alarmAt: Option<int>
    var outbox: seq<Outgoing>

    /** The object's fields as a value of the transition system. */
    function Model(): World
      reads this
    {
      World(state, sessions, storage, alarmAt, outbox)
    }

    /** A fresh actor over whatever its durable storage and alarm already hold. */
    constructor(stored: Option<RoomState>, pendingAlarm: Option<int>)
      ensures Model() == World(None, [], stored, pendingAlarm, [])
    {
      state := None;
      sessions := [];
      storage := stored;
      alarmAt := pendingAlarm;
      outbox := [];
    }

    method Initialize(roomCode: string)
      modifies this
      ensures Model() == RoomSpec.Initialize(old(Model()), roomCode)
    {
      if storage.Some? {
        state := storage;
        return;
      }
      state := Some(NewRoom(roomCode));
      PersistState();
    }

    method PersistState()
      modifies this
      ensures Model() == RoomSpec.PersistState(old(Model()))
    {
      if state.None? {
        return;
      }
      storage := state;
    }

    method Send(socket: nat, msg: ServerMessage)
      modifies this
      ensures Model() == SendTo(old(Model()), socket, msg)
    {
      outbox := outbox + [Sent(socket, msg)];
    }

    method SendError(socket: nat, code: ErrorCode, message: string)
      modifies this
      ensures Model() == SendTo(old(Model()), socket, Error(code, message))
    {
      Send(socket, Error(code, message));
    }

    /** One frame to every session, in the order the sessions were added. */
    method Broadcast(msg: ServerMessage)
      modifies this
      ensures Model() == RoomSpec.Broadcast(old(Model()), msg)
    {
      var i := 0;
      while i < |sessions|
        invariant 0 <= i <= |sessions|
        invariant state == old(state) && sessions == old(sessions)
        invariant storage == old(storage) && alarmAt == old(alarmAt)
        invariant outbox == old(outbox) + BroadcastLog(sessions[..i], msg)
      {
        assert sessions[..i + 1][..i] == sessions[..i];
        outbox := outbox + [Sent(sessions[i].socket, msg)];
        i := i + 1;
      }
      assert sessions[..i] == sessions;
    }

    /** One frame to every session not bound to `excluded`. */
    method BroadcastExcept(excluded: string, msg: ServerMessage)
      modifies this
      ensures Model() == RoomSpec.BroadcastExcept(old(Model()), excluded, msg)
    {
      var i := 0;
      while i < |sessions|
        invariant 0 <= i <= |sessions|
        invariant state == old(state) && sessions == old(sessions)
        invariant storage == old(storage) && alarmAt == old(alarmAt)
        invariant outbox == old(outbox) + ExceptLog(sessions[..i], excluded, msg)
      {
        assert sessions[..i + 1][..i] == sessions[..i];
        if sessions[i].playerId != excluded {
          outbox := outbox + [Sent(sessions[i].socket, msg)];
        }
        i := i + 1;
      }
      assert sessions[..i] == sessions;
    }

    /** The first session bound to `socket`, by position. */
    method FindSessionBySocket(socket: nat) returns (k: Option<nat>)
      ensures k.Some? ==> k.value < |sessions| && sessions[k.value].socket == socket
      ensures k.Some? ==> forall j :: 0 <= j < k.value ==> sessions[j].socket != socket
      ensures k.None? ==> forall j :: 0 <= j < |sessions| ==> sessions[j].socket != socket
      ensures k == SessionIndex(sessions, socket)
    {
      var i := 0;
      while i < |sessions|
        invariant 0 <= i <= |sessions|
        invariant forall j :: 0 <= j < i ==> sessions[j].socket != socket
      {
        if sessions[i].socket == socket {
          return Some(i);
        }
        i := i + 1;
      }
      return None;
    }

    // -------------------------------------------------------------------------
    // Entry points called by the runtime

    method WebSocketMessage(socket: nat, frame: Frame, e: Entropy)
      modifies this
      ensures Model() == RoomSpec.WebSocketMessage(old(Model()), socket, frame, e)
    {
      match frame
      case Binary =>
      case Text(None) =>
        SendError(socket, INVALID_MESSAGE, "Failed to parse message");
      case Text(Some(j)) =>
        var parsed := ParseClientMessage(j);
        if parsed.None? {
          SendError(socket, INVALID_MESSAGE, "Invalid message format");
        } else {
          HandleMessage(socket, parsed.value, e);
        }
    }

    /** `webSocketClose`, which `webSocketError` also runs. */
    method WebSocketClose(socket: nat)
      modifies this
      ensures Model() == HandleClose(old(Model()), socket)
    {
      var k := FindSessionBySocket(socket);
      if k.None? {
        return;
      }
      var id := sessions[k.value].playerId;
      sessions := Remove(sessions, SessionPlayer, id);
      HandlePlayerDisconnect(id);
    }

    /** The runtime deletes the alarm it fires, then calls `alarm`. */
    method Alarm(now: nat)
      modifies this
      ensures Model() == RoomSpec.Alarm(old(Model()), now)
    {
      alarmAt := None;
      if state.None? {
        return;
      }
      match state.value.currentPhase
      case Lobby =>
      case Memory => TransitionTo(Roles, now);
      case Roles => TransitionTo(Details, now);
      case Details => TransitionTo(Questions, now);
      case Questions => TransitionTo(Voting, now);
      case Voting => TransitionTo(Results, now);
      case Results => HandleRoundEnd(now);
    }

    // -------------------------------------------------------------------------
    // Message handlers

    /** The round-play and voice messages reach handlers that change nothing. */
    method HandleMessage(socket: nat, m: ClientMessage, e: Entropy)
      modifies this
      ensures Model() == RoomSpec.HandleMessage(old(Model()), socket, m, e)
    {
      match m
      case JoinRoom(_, name, asSpectator) => HandleJoinRoom(socket, name, asSpectator == Some(true), e);
      case CreateRoom(name, config) => HandleCreateRoom(socket, name, config, e);
      case SetReady(ready) => HandleSetReady(socket, ready);
      case StartGame => HandleStartGame(socket, e.now);
      case LeaveRoom => HandleLeaveRoom(socket);
      case Ping(_) => HandlePing(socket, e.now);
      case Reconnect(_, token) => HandleReconnect(socket, token, e.now);
      case _ =>
    }

    method HandleJoinRoom(socket: nat, name: string, spectating: bool, e: Entropy)
      modifies this
      ensures Model() == RoomSpec.HandleJoinRoom(old(Model()), socket, name, spectating, e)
    {
      if state.None? {
        SendError(socket, ROOM_NOT_FOUND, "Room does not exist");
        return;
      }
      var st := state.value;
      if !NameRegex(name) {
        SendError(socket, INVALID_MESSAGE, "Invalid player name");
        return;
      }
      if NameTaken(st.players + st.spectators, name) {
        SendError(socket, NAME_TAKEN, "Name already taken");
        return;
      }
      if !spectating && |st.players| as real >= st.config.maxPlayers {
        SendError(socket, ROOM_FULL, "Room is full");
        return;
      }
      if st.gameState == Playing && !spectating {
        SendError(socket, GAME_IN_PROGRESS, "Game already in progress");
        return;
      }
      assert JoinRejection(st, name, spectating).None?;
      var id := GenerateId(e.idUuid);
      var token := SessionToken(st.roomCode, id, e.now, e.tokenUuid);
      var p := PlayerData(id, name, |st.players| == 0, false, Connected, 0, token);
      if spectating {
        state := Some(st.(spectators := Set(st.spectators, PlayerId, p)));
      } else {
        state := Some(st.(players := Set(st.players, PlayerId, p)));
      }
      assert state == Some(Admit(st, NewPlayer(st, id, name, token), spectating));
      sessions := Set(sessions, SessionPlayer, Session(id, socket, e.now, spectating));
      ghost var w1 := Model();
      PersistState();
      assert Model() == RoomSpec.PersistState(w1);
      var st' := state.value;
      Send(socket, RoomJoined(st'.roomCode, token, id, p.isHost, spectating,
                              PlayersArray(st'.players), PlayersArray(st'.spectators), st'.config));
      BroadcastExcept(id, PlayerJoined(ToPlayer(p), spectating));
    }

    method HandleCreateRoom(socket: nat, name: string, config: RoomConfig, e: Entropy)
      modifies this
      ensures Model() == RoomSpec.HandleCreateRoom(old(Model()), socket, name, config, e)
    {
      if state.None? {
        SendError(socket, ROOM_NOT_FOUND, "Room not initialized");
        return;
      }
      state := Some(state.value.(config := config));
      HandleJoinRoom(socket, name, false, e);
    }

    method HandleSetReady(socket: nat, ready: bool)
      modifies this
      ensures Model() == RoomSpec.HandleSetReady(old(Model()), socket, ready)
    {
      var k := FindSessionBySocket(socket);
      if k.None? || state.None? {
        return;
      }
      var st, id := state.value, sessions[k.value].playerId;
      var i := IndexOf(st.players, PlayerId, id);
      if i.None? {
        return;
      }
      state := Some(st.(players := st.players[i.value := st.players[i.value].(isReady := ready)]));
      PersistState();
      Broadcast(PlayerReadyChanged(id, ready));
    }

    method HandleStartGame(socket: nat, now: nat)
      modifies this
      ensures Model() == RoomSpec.HandleStartGame(old(Model()), socket, now)
    {
      var k := FindSessionBySocket(socket);
      if k.None? || state.None? {
        return;
      }
      var st := state.value;
      var caller := Lookup(st.players, PlayerId, sessions[k.value].playerId);
      if caller.None? || !caller.value.isHost {
        SendError(socket, NOT_HOST, "Only host can start game");
        return;
      }
      if CountReady(st.players) < MIN_PLAYERS {
        SendError(socket, INVALID_ACTION, "Need at least 3 ready players");
        return;
      }
      state := Some(st.(gameState := Playing, currentRound := 1));
      PersistState();
      Broadcast(GameStarted(state.value.config.rounds, Roster(state.value.players)));
      StartRound(now);
    }

    method HandleLeaveRoom(socket: nat)
      modifies this
      ensures Model() == RoomSpec.HandleLeaveRoom(old(Model()), socket)
    {
      var k := FindSessionBySocket(socket);
      if k.None? {
        return;
      }
      RemovePlayer(sessions[k.value].playerId, Left);
      outbox := outbox + [Closed(socket, 1000, "Left room")];
    }

    method HandlePing(socket: nat, now: nat)
      modifies this
      ensures Model() == RoomSpec.HandlePing(old(Model()), socket, now)
    {
      var k := FindSessionBySocket(socket);
      if k.Some? {
        sessions := sessions[k.value := sessions[k.value].(lastHeartbeat := now)];
      }
      Send(socket, Pong(now));
    }

    method HandleReconnect(socket: nat, token: string, now: nat)
      modifies this
      ensures Model() == RoomSpec.HandleReconnect(old(Model()), socket, token, now)
    {
      if state.None? {
        SendError(socket, ROOM_NOT_FOUND, "Room does not exist");
        return;
      }
      var st := state.value;
      var all := st.players + st.spectators;
      var i := IndexOf(all, TokenOf, token);
      if i.None? {
        SendError(socket, INVALID_SESSION, "Invalid session token");
        return;
      }
      var p := all[i.value];
      state := Some(SetStatusAt(st, i.value, Connected));
      sessions := Set(sessions, SessionPlayer, Session(p.id, socket, now, IndexOf(st.spectators, PlayerId, p.id).Some?));
      PersistState();
      var st' := state.value;
      Send(socket, ReconnectSuccess(st'.gameState, st'.currentPhase, st'.currentRound,
                                    None, None, None, Some(PlayersArray(st'.players)), Scores(st'.players)));
    }

    // -------------------------------------------------------------------------
    // Roster changes

    method HandlePlayerDisconnect(id: string)
      modifies this
      ensures Model() == RoomSpec.HandlePlayerDisconnect(old(Model()), id)
    {
      if state.None? {
        return;
      }
      var st := state.value;
      var ip := IndexOf(st.players, PlayerId, id);
      var isp := IndexOf(st.spectators, PlayerId, id);
      if ip.None? && isp.None? {
        return;
      }
      if st.gameState == LobbyState {
        RemovePlayer(id, Disconnected);
        return;
      }
      var i := if ip.Some? then ip.value else |st.players| + isp.value;
      var p := (st.players + st.spectators)[i];
      state := Some(SetStatusAt(st, i, Dropped));
      PersistState();
      Broadcast(PlayerConnectionChanged(id, Dropped));
      if p.isHost && |state.value.players| > 1 {
        TransferHost(id);
      }
    }

    method RemovePlayer(id: string, reason: LeaveReason)
      modifies this
      ensures Model() == RoomSpec.RemovePlayer(old(Model()), id, reason)
    {
      if state.None? {
        return;
      }
      var st := state.value;
      var p := Participant(st, id);
      if p.None? {
        return;
      }
      DeleteParticipant(id);
      ghost var w1 := Model();
      Broadcast(PlayerLeft(id, p.value.name, reason));
      ghost var w2 := Model();
      assert w2 == RoomSpec.Broadcast(w1, PlayerLeft(id, p.value.name, reason));
      if p.value.isHost && |state.value.players| > 0 {
        TransferHost(id);
      }
    }

    /** The deletions and the snapshot at the start of `removePlayer`. */
    method DeleteParticipant(id: string)
      requires state.Some?
      modifies this
      ensures Model() == RoomSpec.PersistState(old(Model()).(
        state := Some(old(state.value).(players := Remove(old(state.value.players), PlayerId, id),
                                         spectators := Remove(old(state.value.spectators), PlayerId, id))),
        sessions := Remove(old(sessions), SessionPlayer, id)))
    {
      var st := state.value;
      state := Some(st.(players := Remove(st.players, PlayerId, id), spectators := Remove(st.spectators, PlayerId, id)));
      sessions := Remove(sessions, SessionPlayer, id);
      PersistState();
    }

    method TransferHost(previousHostId: string)
      modifies this
      ensures Model() == RoomSpec.TransferHost(old(Model()), previousHostId)
    {
      if state.None? || |state.value.players| == 0 {
        return;
      }
      var st := state.value;
      var h := st.players[0];
      state := Some(st.(players := st.players[0 := h.(isHost := true)]));
      PersistState();
      Broadcast(HostTransferred(h.id, h.name, previousHostId));
    }

    // -------------------------------------------------------------------------
    // Phases and rounds

    method StartRound(now: nat)
      modifies this
      ensures Model() == RoomSpec.StartRound(old(Model()), now)
    {
      if state.None? {
        return;
      }
      var d := ScaledDuration(Memory, state.value.config.timeScale);
      state := Some(state.value.(currentPhase := Memory, phaseEndTime := now + d));
      PersistState();
      Broadcast(RoundStarted(state.value.currentRound, state.value.config.rounds));
      Broadcast(MemoryRevealed(MEMORY_PROMPT, d));
      alarmAt := Some(state.value.phaseEndTime);
    }

    /** The five `transitionTo*` methods, which differ only in the phase and the message they send. */
    method TransitionTo(p: Phase, now: nat)
      requires p in {Roles, Details, Questions, Voting, Results}
      modifies this
      ensures Model() == RoomSpec.TransitionTo(old(Model()), p, now)
    {
      if state.None? {
        return;
      }
      var d := ScaledDuration(p, state.value.config.timeScale);
      state := Some(state.value.(currentPhase := p, phaseEndTime := now + d));
      PersistState();
      if p == Details {
        Broadcast(DetailQuestion(DETAIL_QUESTION, d));
      } else if p == Voting {
        Broadcast(VotingStarted(d));
      }
      alarmAt := Some(state.value.phaseEndTime);
    }

    method HandleRoundEnd(now: nat)
      modifies this
      ensures Model() == RoomSpec.HandleRoundEnd(old(Model()), now)
    {
      if state.None? {
        return;
      }
      if state.value.currentRound >= state.value.config.rounds {
        EndGame(Completed);
      } else {
        state := Some(state.value.(currentRound := state.value.currentRound + 1));
        StartRound(now);
      }
    }

    method EndGame(reason: GameFinishedReason)
      modifies this
      ensures Model() == RoomSpec.EndGame(old(Model()), reason)
    {
      if state.None? {
        return;
      }
      state := Some(state.value.(gameState := Finished, currentPhase := Lobby));
      PersistState();
      var st := state.value;
      Broadcast(GameFinished(reason, Scores(st.players), WinnerOf(st.players), st.currentRound, st.config.rounds));
    }
  }
}
