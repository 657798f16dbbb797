// Behaviour of the room handlers (packages/server/src/room.ts), stated
// against the transition functions of RoomSpec: what each handler changes,
// what it leaves alone, and the order in which its checks run.

module RoomProps {
  import opened Types
  import opened Constants
  import opened Messages
  import opened Keyed
  import opened RoomSpec
  import opened RoomInvariant

  // ---------------------------------------------------------------------------
  // Derived values

  /** `broadcast` writes one frame per session, in session order. */
  lemma {:induction false} BroadcastLogSpec(ss: seq<Session>, msg: ServerMessage)
    ensures |BroadcastLog(ss, msg)| == |ss|
    ensures forall i :: 0 <= i < |ss| ==> BroadcastLog(ss, msg)[i] == Sent(ss[i].socket, msg)
  {
    if ss != [] {
      BroadcastLogSpec(ss[..|ss| - 1], msg);
    }
  }

  /** `broadcastExcept` reaches exactly the sessions not bound to the excluded player. */
  lemma {:induction false} ExceptLogSpec(ss: seq<Session>, excluded: string, msg: ServerMessage)
    ensures forall o :: o in ExceptLog(ss, excluded, msg) ==>
      exists s :: s in ss && s.playerId != excluded && o == Sent(s.socket, msg)
    ensures forall s :: s in ss && s.playerId != excluded ==> Sent(s.socket, msg) in ExceptLog(ss, excluded, msg)
    ensures |ExceptLog(ss, excluded, msg)| <= |ss|
  {
    if ss != [] {
      var init := ss[..|ss| - 1];
      ExceptLogSpec(init, excluded, msg);
      assert ss == init + [ss[|ss| - 1]];
      forall s | s in ss && s.playerId != excluded ensures Sent(s.socket, msg) in ExceptLog(ss, excluded, msg) {
        if s != ss[|ss| - 1] {
          assert s in init;
        }
      }
    }
  }

  /** The score map has exactly the players' ids as keys. */
  lemma {:induction false} ScoresKeys(ps: seq<PlayerData>)
    ensures forall id :: id in Scores(ps) <==> HasKey(ps, PlayerId, id)
  {
    if ps != [] {
      var init := ps[..|ps| - 1];
      ScoresKeys(init);
      forall id ensures id in Scores(ps) <==> HasKey(ps, PlayerId, id) {
        if HasKey(init, PlayerId, id) {
          var j :| 0 <= j < |init| && init[j].id == id;
          assert ps[j].id == id;
        }
        if HasKey(ps, PlayerId, id) && id != ps[|ps| - 1].id {
          var j :| 0 <= j < |ps| && ps[j].id == id;
          assert init[j].id == id;
        }
      }
    }
  }

  /** With unique ids the score map has exactly the players' ids as keys, each with its score. */
  lemma {:induction false} ScoresSpec(ps: seq<PlayerData>)
    requires UniqueKeys(ps, PlayerId)
    ensures forall id :: id in Scores(ps) <==> HasKey(ps, PlayerId, id)
    ensures forall i :: 0 <= i < |ps| ==> ps[i].id in Scores(ps) && Scores(ps)[ps[i].id] == ps[i].score
  {
    ScoresKeys(ps);
    if ps != [] {
      var init := ps[..|ps| - 1];
      assert UniqueKeys(init, PlayerId);
      ScoresSpec(init);
      forall i | 0 <= i < |ps| ensures ps[i].id in Scores(ps) && Scores(ps)[ps[i].id] == ps[i].score {
        if i < |ps| - 1 {
          assert init[i] == ps[i];
        }
      }
    }
  }

  lemma {:induction false} CountReadyAtMostSize(ps: seq<PlayerData>)
    ensures CountReady(ps) <= |ps|
  {
    if ps != [] {
      CountReadyAtMostSize(ps[1..]);
    }
  }

  /**
   * The winner of `endGame` is the first entry holding the highest score:
   * with the maximum at `i` and only lower scores before it, it is `ps[i]`.
   */
  lemma {:induction false} WinnerIsFirstMaximum(ps: seq<PlayerData>, i: nat)
    requires i < |ps|
    requires forall j :: 0 <= j < |ps| ==> ps[j].score <= ps[i].score
    requires forall j :: 0 <= j < i ==> ps[j].score < ps[i].score
    ensures WinnerOf(ps) == Winner(ps[i].id, ps[i].name, ps[i].score)
  {
    var k := TopScorer(ps);
    assert k == i;
  }

  /** A later entry with the same top score does not win: ties go to the earlier entry. */
  lemma {:induction false} WinnerTieGoesToEarlier(ps: seq<PlayerData>, i: nat, j: nat)
    requires UniqueKeys(ps, PlayerId)
    requires i < j < |ps| && ps[i].score == ps[j].score
    requires forall m :: 0 <= m < |ps| ==> ps[m].score <= ps[i].score
    ensures WinnerOf(ps).score == ps[i].score
    ensures WinnerOf(ps).id != ps[j].id
  {
    var k := TopScorer(ps);
    assert k <= i;
    assert PlayerId(ps[k]) != PlayerId(ps[j]);
  }

  // ---------------------------------------------------------------------------
  // Session tokens

  /** Splitting at the first dot: the part before it is determined when neither part holds a dot. */
  lemma {:induction false} SplitAtDot(a: string, x: string, b: string, y: string)
    requires '.' !in a && '.' !in b
    requires a + "." + x == b + "." + y
    ensures a == b && x == y
  {
    var l, r := a + "." + x, b + "." + y;
    assert |a| == |b| by {
      assert l[|a|] == '.' && r[|b|] == '.';
    }
    assert a == l[..|a|] && b == r[..|b|];
    assert x == l[|a| + 1..] && y == r[|b| + 1..];
  }

  /** Room codes and ids hold no dot, so a session token names the room and the player it was issued for. */
  lemma {:induction false} TokenDeterminesPlayer(c1: string, id1: string, n1: nat, u1: string,
                                                 c2: string, id2: string, n2: nat, u2: string)
    requires '.' !in c1 && '.' !in c2 && '.' !in id1 && '.' !in id2
    requires SessionToken(c1, id1, n1, u1) == SessionToken(c2, id2, n2, u2)
    ensures c1 == c2 && id1 == id2
  {
    var t1 := NatToString(n1) + "." + Take(u1, 8);
    var t2 := NatToString(n2) + "." + Take(u2, 8);
    TokenShape(c1, id1, t1, n1, u1);
    TokenShape(c2, id2, t2, n2, u2);
    SplitAtDot(c1, id1 + "." + t1, c2, id2 + "." + t2);
    SplitAtDot(id1, t1, id2, t2);
  }

  lemma TokenShape(c: string, id: string, t: string, n: nat, u: string)
    requires t == NatToString(n) + "." + Take(u, 8)
    ensures SessionToken(c, id, n, u) == c + "." + (id + "." + t)
  {
    var d := ".";
    assert c + d + id + d + t == c + d + (id + d + t);
  }

  /** A generated id is never empty and carries no dot when the UUID carries none. */
  lemma GeneratedIdsHaveNoDot(uuid: string)
    requires forall c :: c in uuid ==> c == '-' || '0' <= c <= '9' || 'a' <= c <= 'f'
    ensures '.' !in GenerateId(uuid)
  {
  }

  // ---------------------------------------------------------------------------
  // initialize

  /**
   * `initialize` restores a stored snapshot unchanged, ignoring the room
   * code, or creates and persists a fresh lobby room; running it again
   * changes nothing.
   */
  lemma InitializeOutcome(w: World, code: string, code': string)
    ensures w.storage.Some? ==> Initialize(w, code) == w.(state := w.storage)
    ensures w.storage.None? ==> Initialize(w, code) == w.(state := Some(NewRoom(code)), storage := Some(NewRoom(code)))
    ensures Initialize(Initialize(w, code), code') == Initialize(w, code)
  {
  }

  // ---------------------------------------------------------------------------
  // join_room / create_room

  /** The admission checks run in order: name format, name taken, capacity, game in progress. */
  lemma JoinRejectionOrder(st: RoomState, name: string, spectating: bool)
    ensures var r := JoinRejection(st, name, spectating);
      && (r.Some? && r.value.code == INVALID_MESSAGE <==> !NameRegex(name))
      && (r.Some? && r.value.code == NAME_TAKEN <==> NameRegex(name) && NameTaken(st.players + st.spectators, name))
      && (r.Some? && r.value.code == ROOM_FULL <==>
            NameRegex(name) && !NameTaken(st.players + st.spectators, name)
            && !spectating && |st.players| as real >= st.config.maxPlayers)
      && (r.Some? && r.value.code == GAME_IN_PROGRESS <==>
            NameRegex(name) && !NameTaken(st.players + st.spectators, name)
            && !spectating && |st.players| as real < st.config.maxPlayers && st.gameState == Playing)
      && (r.None? <==>
            NameRegex(name) && !NameTaken(st.players + st.spectators, name)
            && (spectating || (|st.players| as real < st.config.maxPlayers && st.gameState != Playing)))
  {
  }

  /** A rejected join only answers the caller with the error. */
  lemma JoinRejectedChangesNothing(w: World, socket: nat, name: string, spectating: bool, e: Entropy)
    requires w.state.None? || JoinRejection(w.state.value, name, spectating).Some?
    ensures var r := HandleJoinRoom(w, socket, name, spectating, e);
      && r.(outbox := w.outbox) == w
      && |r.outbox| == |w.outbox| + 1 && r.outbox[..|w.outbox|] == w.outbox
      && r.outbox[|w.outbox|].Sent? && r.outbox[|w.outbox|].socket == socket
      && r.outbox[|w.outbox|].msg.Error?
  {
  }

  /**
   * An accepted join appends the new entry to the chosen map only, marks it
   * host exactly when there were no players (spectators included), binds
   * the socket's session and persists; a player join needs a free seat.
   */
  lemma {:induction false} JoinAdmits(w: World, socket: nat, name: string, spectating: bool, e: Entropy)
    requires WorldInv(w) && FreshDraw(w, e) && w.state.Some?
    requires JoinRejection(w.state.value, name, spectating).None?
    ensures var st := w.state.value;
      var id := GenerateId(e.idUuid);
      var p := NewPlayer(st, id, name, SessionToken(st.roomCode, id, e.now, e.tokenUuid));
      var r := HandleJoinRoom(w, socket, name, spectating, e);
      && r.state.Some? && r.storage == r.state
      && p.isHost == (|st.players| == 0)
      && (spectating ==> r.state.value.spectators == st.spectators + [p] && r.state.value.players == st.players)
      && (!spectating ==> r.state.value.players == st.players + [p] && r.state.value.spectators == st.spectators)
      && (!spectating ==> (|st.players| as real) < st.config.maxPlayers && st.gameState != Playing)
      && Lookup(r.sessions, SessionPlayer, id) == Some(Session(id, socket, e.now, spectating))
      && WorldInv(r)
  {
    var st := w.state.value;
    var id := GenerateId(e.idUuid);
    var p := NewPlayer(st, id, name, SessionToken(st.roomCode, id, e.now, e.tokenUuid));
    assert !HasKey(st.players, PlayerId, id) && !HasKey(st.spectators, PlayerId, id);
    JoinKeepsInv(w, socket, name, spectating, e);
  }

  /**
   * A non-integral `maxPlayers` (the schema accepts 3.5) admits one player
   * more than its integer part: the fourth player joins a room capped at 3.5.
   */
  lemma FractionalCapacityAdmitsExtraPlayer(st: RoomState, name: string)
    requires |st.players| == 3 && st.config.maxPlayers == 3.5 && st.gameState == LobbyState
    requires NameRegex(name) && !NameTaken(st.players + st.spectators, name)
    ensures JoinRejection(st, name, false).None?
    ensures (|st.players| + 1) as real > st.config.maxPlayers
  {
  }

  /** With a whole-number cap, player joins never take the player count past `maxPlayers`. */
  lemma {:induction false} JoinRespectsWholeCapacity(w: World, socket: nat, name: string, e: Entropy)
    requires WorldInv(w) && FreshDraw(w, e) && w.state.Some?
    requires w.state.value.config.maxPlayers == w.state.value.config.maxPlayers.Floor as real
    requires |w.state.value.players| as real <= w.state.value.config.maxPlayers
    ensures var r := HandleJoinRoom(w, socket, name, false, e);
      r.state.Some? && |r.state.value.players| as real <= r.state.value.config.maxPlayers
  {
    var st := w.state.value;
    if JoinRejection(st, name, false).None? {
      JoinAdmits(w, socket, name, false, e);
      var cap := st.config.maxPlayers.Floor;
      assert |st.players| < cap;
      assert (|st.players| + 1) as real <= cap as real;
    } else {
      JoinRejectedChangesNothing(w, socket, name, false, e);
    }
  }

  /** `create_room` installs the new configuration before the join runs, even when the join is rejected. */
  lemma CreateInstallsConfig(w: World, socket: nat, name: string, config: RoomConfig, e: Entropy)
    requires w.state.Some?
    ensures var r := HandleCreateRoom(w, socket, name, config, e);
      r.state.Some? && r.state.value.config == config
  {
  }

  // ---------------------------------------------------------------------------
  // start_game

  /**
   * `start_game` from a known socket: a caller that is not the host gets
   * NOT_HOST, fewer than three ready players give INVALID_ACTION, both
   * without any other change; otherwise the game is playing in round 1,
   * phase memory, with the alarm at the memory deadline, after `now`.
   */
  lemma {:induction false} StartGameOutcomes(w: World, socket: nat, now: nat)
    requires WorldInv(w) && w.state.Some? && SessionIndex(w.sessions, socket).Some?
    ensures var st := w.state.value;
      var caller := Lookup(st.players, PlayerId, w.sessions[SessionIndex(w.sessions, socket).value].playerId);
      var r := HandleStartGame(w, socket, now);
      && (caller.None? || !caller.value.isHost ==>
            r == w.(outbox := w.outbox + [Sent(socket, Error(NOT_HOST, "Only host can start game"))]))
      && (caller.Some? && caller.value.isHost && CountReady(st.players) < MIN_PLAYERS ==>
            r == w.(outbox := w.outbox + [Sent(socket, Error(INVALID_ACTION, "Need at least 3 ready players"))]))
      && (caller.Some? && caller.value.isHost && CountReady(st.players) >= MIN_PLAYERS ==>
            && |st.players| >= MIN_PLAYERS
            && r.state == Some(st.(gameState := Playing, currentRound := 1, currentPhase := Memory,
                                   phaseEndTime := now + ScaledDuration(Memory, st.config.timeScale)))
            && r.storage == r.state && r.sessions == w.sessions
            && r.alarmAt == Some(r.state.value.phaseEndTime)
            && r.state.value.phaseEndTime > now)
  {
    CountReadyAtMostSize(w.state.value.players);
  }

  /** Without a session for the socket, `start_game` does nothing at all. */
  lemma StartGameNeedsSession(w: World, socket: nat, now: nat)
    requires SessionIndex(w.sessions, socket).None?
    ensures HandleStartGame(w, socket, now) == w
  {
  }

  // ---------------------------------------------------------------------------
  // alarm

  /**
   * The alarm moves a playing room one phase along the declared order from
   * memory to results, keeping the roster, the round and the game state, and
   * re-arms itself at the new phase's deadline, which lies after `now`.
   */
  lemma {:induction false} AlarmAdvancesPhase(w: World, now: nat)
    requires w.state.Some? && Inv(w.state.value)
    requires w.state.value.currentPhase != Lobby && w.state.value.currentPhase != Results
    ensures var st := w.state.value; var r := Alarm(w, now);
      && r.state.Some? && r.storage == r.state && r.sessions == w.sessions
      && PhaseOrdinal(r.state.value.currentPhase) == PhaseOrdinal(st.currentPhase) + 1
      && r.state.value.(currentPhase := st.currentPhase, phaseEndTime := st.phaseEndTime) == st
      && r.alarmAt == Some(r.state.value.phaseEndTime)
      && r.state.value.phaseEndTime > now
  {
    var w0 := w.(alarmAt := None);
    var st := w.state.value;
    var p := match st.currentPhase
      case Memory => Roles case Roles => Details case Details => Questions
      case Questions => Voting case _ => Results;
    assert Alarm(w, now) == TransitionTo(w0, p, now);
  }

  /**
   * From results the alarm starts the next round in phase memory while
   * rounds remain, and otherwise finishes the game back in the lobby phase
   * with no alarm pending.
   */
  lemma {:induction false} AlarmEndsRound(w: World, now: nat)
    requires w.state.Some? && Inv(w.state.value) && w.state.value.currentPhase == Results
    ensures var st := w.state.value; var r := Alarm(w, now);
      && r.state.Some? && r.storage == r.state
      && r.state.value.players == st.players && r.state.value.spectators == st.spectators
      && (st.currentRound < st.config.rounds ==>
            && r.state.value == st.(currentRound := st.currentRound + 1, currentPhase := Memory,
                                    phaseEndTime := now + ScaledDuration(Memory, st.config.timeScale))
            && r.alarmAt == Some(r.state.value.phaseEndTime))
      && (st.currentRound >= st.config.rounds ==>
            && r.state.value == st.(gameState := Finished, currentPhase := Lobby)
            && r.alarmAt == None)
  {
    var w0 := w.(alarmAt := None);
    assert Alarm(w, now) == HandleRoundEnd(w0, now);
  }

  /** In the lobby phase, or before `initialize`, the alarm only clears itself. */
  lemma AlarmInLobbyIsNoop(w: World, now: nat)
    requires w.state.None? || w.state.value.currentPhase == Lobby
    ensures Alarm(w, now) == w.(alarmAt := None)
  {
  }

  /**
   * `endGame` announces the score map and the winner: the first player
   * holding the highest score, or the empty placeholder with no players.
   */
  lemma {:induction false} EndGameAnnouncesWinner(w: World, reason: GameFinishedReason)
    requires w.state.Some? && UniqueKeys(w.state.value.players, PlayerId)
    ensures var st := w.state.value; var r := EndGame(w, reason);
      && |r.outbox| == |w.outbox| + |w.sessions|
      && forall i :: 0 <= i < |w.sessions| ==>
        && r.outbox[|w.outbox| + i].Sent? && r.outbox[|w.outbox| + i].socket == w.sessions[i].socket
        && var m := r.outbox[|w.outbox| + i].msg;
        && m.GameFinished? && m.finishReason == reason
        && (forall j :: 0 <= j < |st.players| ==>
              st.players[j].id in m.finalScores && m.finalScores[st.players[j].id] == st.players[j].score)
        && (st.players == [] ==> m.winner == Winner("", "", 0))
        && (forall j :: 0 <= j < |st.players| ==> st.players[j].score <= m.winner.score)
  {
    var st := w.state.value;
    var st' := st.(gameState := Finished, currentPhase := Lobby);
    var msg := GameFinished(reason, Scores(st'.players), WinnerOf(st'.players), st'.currentRound, st'.config.rounds);
    BroadcastLogSpec(w.sessions, msg);
    ScoresSpec(st.players);
  }

  // ---------------------------------------------------------------------------
  // reconnect

  /** An unknown token only earns the caller an INVALID_SESSION error. */
  lemma ReconnectUnknownToken(w: World, socket: nat, token: string, now: nat)
    requires w.state.Some?
    requires IndexOf(w.state.value.players + w.state.value.spectators, TokenOf, token).None?
    ensures HandleReconnect(w, socket, token, now)
      == w.(outbox := w.outbox + [Sent(socket, Error(INVALID_SESSION, "Invalid session token"))])
  {
  }

  /** Setting a status touches the one entry at position `i` of players-then-spectators. */
  lemma {:induction false} SetStatusAtSpec(st: RoomState, i: nat, status: ConnectionStatus)
    requires i < |st.players| + |st.spectators|
    ensures var st' := SetStatusAt(st, i, status);
      var all, all' := st.players + st.spectators, st'.players + st'.spectators;
      && |st'.players| == |st.players| && |all'| == |all|
      && all'[i] == all[i].(connectionStatus := status)
      && (forall j :: 0 <= j < |all| && j != i ==> all'[j] == all[j])
      && st'.(players := st.players, spectators := st.spectators) == st
  {
    var st' := SetStatusAt(st, i, status);
    var all, all' := st.players + st.spectators, st'.players + st'.spectators;
    var np := |st.players|;
    forall j | 0 <= j < |all| && j != i ensures all'[j] == all[j] {
      if j < np {
        assert all'[j] == st'.players[j];
      } else {
        assert all'[j] == st'.spectators[j - np];
      }
    }
  }

  /**
   * A known token marks the first entry holding it connected and changes
   * no other entry, and binds that player's session to the new socket.
   */
  lemma {:induction false} ReconnectKnownToken(w: World, socket: nat, token: string, now: nat)
    requires WorldInv(w) && w.state.Some?
    requires IndexOf(w.state.value.players + w.state.value.spectators, TokenOf, token).Some?
    ensures var st := w.state.value;
      var all := st.players + st.spectators;
      var i := IndexOf(all, TokenOf, token).value;
      var r := HandleReconnect(w, socket, token, now);
      && r.state.Some? && r.storage == r.state
      && var all' := r.state.value.players + r.state.value.spectators;
      && |r.state.value.players| == |st.players| && |all'| == |all|
      && all'[i] == all[i].(connectionStatus := Connected)
      && (forall j :: 0 <= j < |all| && j != i ==> all'[j] == all[j])
      && Lookup(r.sessions, SessionPlayer, all[i].id)
         == Some(Session(all[i].id, socket, now, HasKey(st.spectators, PlayerId, all[i].id)))
      && (forall j :: 0 <= j < |w.sessions| && w.sessions[j].playerId != all[i].id ==> r.sessions[j] == w.sessions[j])
  {
    var st := w.state.value;
    var i := IndexOf(st.players + st.spectators, TokenOf, token).value;
    SetStatusAtSpec(st, i, Connected);
  }

  // ---------------------------------------------------------------------------
  // leave_room, socket close

  /** Two lists with the same ids position by position hold the same keys. */
  lemma {:induction false} SameIdsSameKeys(ps: seq<PlayerData>, ps': seq<PlayerData>)
    requires |ps'| == |ps| && forall j :: 0 <= j < |ps| ==> ps'[j].id == ps[j].id
    ensures forall k :: HasKey(ps', PlayerId, k) <==> HasKey(ps, PlayerId, k)
  {
    forall k ensures HasKey(ps', PlayerId, k) <==> HasKey(ps, PlayerId, k) {
      if HasKey(ps, PlayerId, k) {
        var j :| 0 <= j < |ps| && ps[j].id == k;
        assert ps'[j].id == k;
      }
    }
  }

  /**
   * `removePlayer` drops the entry from both maps and its session, keeps
   * every other participant, and leaves the game state alone.
   */
  lemma {:induction false} RemovePlayerSpec(w: World, id: string, reason: LeaveReason)
    requires w.state.Some? && Participant(w.state.value, id).Some?
    ensures var st := w.state.value; var r := RemovePlayer(w, id, reason);
      && r.state.Some? && r.storage == r.state
      && !HasKey(r.state.value.players, PlayerId, id)
      && !HasKey(r.state.value.spectators, PlayerId, id)
      && !HasKey(r.sessions, SessionPlayer, id)
      && (forall q :: q in st.players && q.id != id ==> HasKey(r.state.value.players, PlayerId, q.id))
      && r.state.value.spectators == Remove(st.spectators, PlayerId, id)
      && r.state.value.gameState == st.gameState && r.state.value.currentPhase == st.currentPhase
  {
    var st := w.state.value;
    var p := Participant(st, id).value;
    var ps := Remove(st.players, PlayerId, id);
    var st1 := st.(players := ps, spectators := Remove(st.spectators, PlayerId, id));
    var w1 := PersistState(w.(state := Some(st1), sessions := Remove(w.sessions, SessionPlayer, id)));
    var w2 := Broadcast(w1, PlayerLeft(id, p.name, reason));
    var r := RemovePlayer(w, id, reason);
    forall q | q in st.players && q.id != id ensures HasKey(ps, PlayerId, q.id) {
      assert q in ps;
      var j :| 0 <= j < |ps| && ps[j] == q;
    }
    if p.isHost && |ps| > 0 {
      assert r == TransferHost(w2, id);
      SameIdsSameKeys(ps, ps[0 := ps[0].(isHost := true)]);
    } else {
      assert r == w2;
    }
  }

  /** `leave_room` removes the sender in every game state and closes its socket with code 1000. */
  lemma {:induction false} LeaveRemovesInAnyState(w: World, socket: nat)
    requires w.state.Some? && SessionIndex(w.sessions, socket).Some?
    requires Participant(w.state.value, w.sessions[SessionIndex(w.sessions, socket).value].playerId).Some?
    ensures var id := w.sessions[SessionIndex(w.sessions, socket).value].playerId;
      var r := HandleLeaveRoom(w, socket);
      && r.state.Some?
      && !HasKey(r.state.value.players, PlayerId, id) && !HasKey(r.state.value.spectators, PlayerId, id)
      && !HasKey(r.sessions, SessionPlayer, id)
      && r.state.value.gameState == w.state.value.gameState
      && r.outbox[|r.outbox| - 1] == Closed(socket, 1000, "Left room")
  {
    var id := w.sessions[SessionIndex(w.sessions, socket).value].playerId;
    RemovePlayerSpec(w, id, Left);
  }

  /** A socket closing in the lobby removes its player from both maps and from the sessions. */
  lemma {:induction false} CloseInLobbyRemoves(w: World, socket: nat)
    requires w.state.Some? && w.state.value.gameState == LobbyState
    requires SessionIndex(w.sessions, socket).Some?
    ensures var id := w.sessions[SessionIndex(w.sessions, socket).value].playerId;
      var r := HandleClose(w, socket);
      && r.state.Some?
      && !HasKey(r.state.value.players, PlayerId, id) && !HasKey(r.state.value.spectators, PlayerId, id)
      && !HasKey(r.sessions, SessionPlayer, id)
      && (forall q :: q in w.state.value.players && q.id != id ==> HasKey(r.state.value.players, PlayerId, q.id))
  {
    var id := w.sessions[SessionIndex(w.sessions, socket).value].playerId;
    var w1 := w.(sessions := Remove(w.sessions, SessionPlayer, id));
    var st := w.state.value;
    if Participant(st, id).Some? {
      assert IndexOf(st.players, PlayerId, id).Some? || IndexOf(st.spectators, PlayerId, id).Some?;
      assert HandleClose(w, socket) == RemovePlayer(w1, id, Disconnected);
      RemovePlayerSpec(w1, id, Disconnected);
    } else {
      assert HandleClose(w, socket) == w1;
      assert forall q :: q in st.players ==> q.id != id;
      forall q | q in st.players && q.id != id ensures HasKey(st.players, PlayerId, q.id) {
        var j :| 0 <= j < |st.players| && st.players[j] == q;
      }
    }
  }

  /**
   * `st'` is `st` with the entry of `id` marked dropped: no entry is added,
   * removed, moved or otherwise changed, and the game stays where it was.
   */
  predicate MarksDropped(st: RoomState, st': RoomState, id: string) {
    var all, all' := st.players + st.spectators, st'.players + st'.spectators;
    && |st'.players| == |st.players| && |all'| == |all|
    && (forall j :: 0 <= j < |all| ==>
          all'[j] == if all[j].id == id then all[j].(connectionStatus := Dropped) else all[j])
    && st'.gameState == st.gameState && st'.currentPhase == st.currentPhase
  }

  /**
   * Marking the entry of `id` dropped changes that entry's status and
   * nothing else of the room under the invariant, sessions included.
   */
  lemma {:induction false} MarkDroppedSpec(w: World, id: string, i: nat)
    requires w.state.Some? && Inv(w.state.value)
    requires i < |w.state.value.players| + |w.state.value.spectators|
    requires (w.state.value.players + w.state.value.spectators)[i].id == id
    ensures var st := w.state.value;
      var r := MarkDropped(w, id, i);
      && r.state.Some? && r.sessions == w.sessions && r.storage == r.state
      && MarksDropped(st, r.state.value, id)
  {
    var st := w.state.value;
    var all := st.players + st.spectators;
    SetStatusAtSpec(st, i, Dropped);
    OnlyEntryWithId(st, id, i);
    var st' := SetStatusAt(st, i, Dropped);
    var w1 := Broadcast(PersistState(w.(state := Some(st'))), PlayerConnectionChanged(id, Dropped));
    if all[i].isHost && |st'.players| > 1 {
      SetStatusKeepsInv(st, i, Dropped);
      var ps := st'.players;
      assert ps[0 := ps[0].(isHost := true)] == ps;
      assert MarkDropped(w, id, i) == TransferHost(w1, id);
    } else {
      assert MarkDropped(w, id, i) == w1;
    }
  }

  /**
   * `handlePlayerDisconnect` outside the lobby keeps the player's slot and
   * marks it dropped; no other entry and no session changes.
   */
  lemma {:induction false} DisconnectInGameDrops(w: World, id: string)
    requires w.state.Some? && Inv(w.state.value) && w.state.value.gameState != LobbyState
    ensures var st := w.state.value;
      var r := HandlePlayerDisconnect(w, id);
      && r.state.Some? && r.sessions == w.sessions
      && MarksDropped(st, r.state.value, id)
  {
    var st := w.state.value;
    var ip := IndexOf(st.players, PlayerId, id);
    var isp := IndexOf(st.spectators, PlayerId, id);
    if ip.Some? || isp.Some? {
      var i := if ip.Some? then ip.value else |st.players| + isp.value;
      EntryAtFoundIndex(st, id);
      assert HandlePlayerDisconnect(w, id) == MarkDropped(w, id, i);
      MarkDroppedSpec(w, id, i);
    } else {
      assert HandlePlayerDisconnect(w, id) == w;
      NoEntryWhenAbsent(st, id);
    }
  }

  /** The position `handlePlayerDisconnect` computes holds the entry of `id`. */
  lemma EntryAtFoundIndex(st: RoomState, id: string)
    requires IndexOf(st.players, PlayerId, id).Some? || IndexOf(st.spectators, PlayerId, id).Some?
    ensures var ip, isp := IndexOf(st.players, PlayerId, id), IndexOf(st.spectators, PlayerId, id);
      var i := if ip.Some? then ip.value else |st.players| + isp.value;
      i < |st.players| + |st.spectators| && (st.players + st.spectators)[i].id == id
  {
  }

  /** An id found in neither map belongs to no entry. */
  lemma {:induction false} NoEntryWhenAbsent(st: RoomState, id: string)
    requires IndexOf(st.players, PlayerId, id).None? && IndexOf(st.spectators, PlayerId, id).None?
    ensures forall j :: 0 <= j < |st.players + st.spectators| ==> (st.players + st.spectators)[j].id != id
  {
    var all := st.players + st.spectators;
    forall j | 0 <= j < |all| ensures all[j].id != id {
      if j < |st.players| { assert all[j] == st.players[j]; }
      else { assert all[j] == st.spectators[j - |st.players|]; }
    }
  }

  /**
   * A socket closing during or after a game keeps its player's slot and
   * marks it dropped; no other entry changes, and its session is gone.
   */
  lemma {:induction false} CloseInGameDrops(w: World, socket: nat)
    requires WorldInv(w) && w.state.Some? && w.state.value.gameState != LobbyState
    requires SessionIndex(w.sessions, socket).Some?
    ensures var st := w.state.value;
      var id := w.sessions[SessionIndex(w.sessions, socket).value].playerId;
      var r := HandleClose(w, socket);
      && r.state.Some? && !HasKey(r.sessions, SessionPlayer, id)
      && MarksDropped(st, r.state.value, id)
  {
    var id := w.sessions[SessionIndex(w.sessions, socket).value].playerId;
    DisconnectInGameDrops(w.(sessions := Remove(w.sessions, SessionPlayer, id)), id);
  }

  /** Under the invariant the entry found for an id is the only one carrying it. */
  lemma {:induction false} OnlyEntryWithId(st: RoomState, id: string, i: nat)
    requires Inv(st) && i < |st.players| + |st.spectators|
    requires (st.players + st.spectators)[i].id == id
    ensures forall j :: 0 <= j < |st.players + st.spectators| && j != i ==> (st.players + st.spectators)[j].id != id
  {
    var all := st.players + st.spectators;
    var np := |st.players|;
    forall j | 0 <= j < |all| && j != i ensures all[j].id != id {
      if i < np && j < np {
        assert all[i] == st.players[i] && all[j] == st.players[j];
      } else if i >= np && j >= np {
        assert all[i] == st.spectators[i - np] && all[j] == st.spectators[j - np];
      } else if i < np {
        assert all[i] in st.players && all[j] in st.spectators;
      } else {
        assert all[j] in st.players && all[i] in st.spectators;
      }
    }
  }

  // ---------------------------------------------------------------------------
  // Frames that change nothing

  /** The round-play and voice messages, whose handlers are empty. */
  predicate IsStub(m: ClientMessage) {
    m.SubmitDetail? || m.AskQuestion? || m.AnswerQuestion? || m.CallVote? || m.CastVote?
    || m.ContinueGame? || m.VoiceMute? || m.VoiceDeafen?
  }

  /**
   * Binary frames and stub messages leave the whole room alone; unparseable
   * text and schema failures only answer INVALID_MESSAGE.
   */
  lemma IgnoredFramesChangeNothing(w: World, socket: nat, frame: Frame, e: Entropy)
    ensures frame.Binary? ==> WebSocketMessage(w, socket, frame, e) == w
    ensures frame == Text(None) ==>
      WebSocketMessage(w, socket, frame, e)
      == w.(outbox := w.outbox + [Sent(socket, Error(INVALID_MESSAGE, "Failed to parse message"))])
    ensures frame.Text? && frame.json.Some? && ParseClientMessage(frame.json.value).None? ==>
      WebSocketMessage(w, socket, frame, e)
      == w.(outbox := w.outbox + [Sent(socket, Error(INVALID_MESSAGE, "Invalid message format"))])
    ensures (frame.Text? && frame.json.Some? && ParseClientMessage(frame.json.value).Some?
             && IsStub(ParseClientMessage(frame.json.value).value)) ==>
      WebSocketMessage(w, socket, frame, e) == w
  {
  }

  /** `ping` refreshes only the sender's heartbeat and always answers with the server time. */
  lemma PingOnlyRefreshesHeartbeat(w: World, socket: nat, now: nat)
    ensures var r := HandlePing(w, socket, now);
      && r.state == w.state && r.storage == w.storage && r.alarmAt == w.alarmAt
      && |r.sessions| == |w.sessions|
      && (forall j :: 0 <= j < |w.sessions| ==>
            r.sessions[j] == w.sessions[j]
            || (Some(j) == SessionIndex(w.sessions, socket) && r.sessions[j] == w.sessions[j].(lastHeartbeat := now)))
      && r.outbox == w.outbox + [Sent(socket, Pong(now))]
  {
  }
}
