// The invariant every handler of the room keeps: ids are unique and never
// shared between players and spectators, names are valid and distinct
// ignoring case, exactly the first-inserted player is host, the
// configuration passes the create_room schema, and the game is playing
// exactly when the phase is not the lobby. The durable snapshot satisfies it
// too, so a room restored by `initialize` starts from a good state.

module RoomInvariant {
  import opened Types
  import opened Constants
  import opened Messages
  import opened Keyed
  import opened RoomSpec

  /** Exactly the first player is host. */
  predicate HostInvariant(ps: seq<PlayerData>) {
    forall i :: 0 <= i < |ps| ==> (ps[i].isHost <==> i == 0)
  }

  /** Ids unique within and across the two maps; names valid and case-insensitively distinct. */
  predicate RosterCore(ps: seq<PlayerData>, ss: seq<PlayerData>) {
    && UniqueKeys(ps, PlayerId)
    && UniqueKeys(ss, PlayerId)
    && (forall x, y :: x in ps && y in ss ==> x.id != y.id)
    && (forall x :: x in ps + ss ==> NameRegex(x.name))
    && (forall x, y :: x in ps + ss && y in ps + ss && LowerAscii(x.name) == LowerAscii(y.name) ==> x.id == y.id)
  }

  /** The part of the invariant about who is in the room and how it is configured. */
  predicate RosterInv(st: RoomState) {
    && RosterCore(st.players, st.spectators)
    && HostInvariant(st.players)
    && ValidConfig(st.config)
  }

  predicate Inv(st: RoomState) {
    && RosterInv(st)
    && (st.gameState == Playing <==> st.currentPhase != Lobby)
    && (st.gameState == Playing ==> st.currentRound >= 1)
  }

  predicate WorldInv(w: World) {
    && (w.state.Some? ==> Inv(w.state.value))
    && (w.storage.Some? ==> Inv(w.storage.value))
    && UniqueKeys(w.sessions, SessionPlayer)
  }

  /** The id a join would draw is not in use (a UUID collision is not modelled). */
  predicate FreshDraw(w: World, e: Entropy) {
    w.state.Some? ==>
      var id := GenerateId(e.idUuid);
      !HasKey(w.state.value.players, PlayerId, id) && !HasKey(w.state.value.spectators, PlayerId, id)
  }

  /** Every entry of `xs'` has the id and name of some entry of `xs`. */
  predicate Shadows(xs': seq<PlayerData>, xs: seq<PlayerData>) {
    forall y :: y in xs' ==> exists x :: x in xs && x.id == y.id && x.name == y.name
  }

  // ---------------------------------------------------------------------------
  // Consequences

  /** Under the invariant no two entries of the room, player or spectator, share a name ignoring case. */
  lemma {:induction false} NamesPairwiseDistinct(st: RoomState, i: nat, j: nat)
    requires Inv(st)
    requires i < j < |st.players + st.spectators|
    ensures LowerAscii((st.players + st.spectators)[i].name) != LowerAscii((st.players + st.spectators)[j].name)
  {
    var all := st.players + st.spectators;
    var np := |st.players|;
    assert all[i] in all && all[j] in all;
    if j < np {
      assert all[i] == st.players[i] && all[j] == st.players[j];
    } else if i >= np {
      assert all[i] == st.spectators[i - np] && all[j] == st.spectators[j - np];
    } else {
      assert all[i] in st.players && all[j] in st.spectators;
    }
  }

  /** Under the invariant there is at most one host among the players. */
  lemma HostUnique(st: RoomState, i: nat, j: nat)
    requires Inv(st) && i < |st.players| && j < |st.players|
    requires st.players[i].isHost && st.players[j].isHost
    ensures i == j == 0
  {
  }

  // ---------------------------------------------------------------------------
  // Roster building blocks

  lemma {:induction false} PointwiseShadows(xs: seq<PlayerData>, xs': seq<PlayerData>)
    requires |xs'| == |xs|
    requires forall i :: 0 <= i < |xs| ==> xs'[i].id == xs[i].id && xs'[i].name == xs[i].name
    ensures Shadows(xs', xs)
    ensures UniqueKeys(xs, PlayerId) ==> UniqueKeys(xs', PlayerId)
  {
    forall y | y in xs' ensures exists x :: x in xs && x.id == y.id && x.name == y.name {
      var k :| 0 <= k < |xs'| && xs'[k] == y;
      assert xs[k] in xs;
    }
  }

  lemma {:induction false} CoreShadows(ps: seq<PlayerData>, ss: seq<PlayerData>, ps': seq<PlayerData>, ss': seq<PlayerData>)
    requires RosterCore(ps, ss)
    requires UniqueKeys(ps', PlayerId) && UniqueKeys(ss', PlayerId)
    requires Shadows(ps', ps) && Shadows(ss', ss)
    ensures RosterCore(ps', ss')
  {
    forall x, y | x in ps' && y in ss' ensures x.id != y.id {
      var x0 :| x0 in ps && x0.id == x.id && x0.name == x.name;
      var y0 :| y0 in ss && y0.id == y.id && y0.name == y.name;
    }
    forall x | x in ps' + ss' ensures NameRegex(x.name) {
      var x0 :| x0 in ps + ss && x0.id == x.id && x0.name == x.name;
    }
    forall x, y | x in ps' + ss' && y in ps' + ss' && LowerAscii(x.name) == LowerAscii(y.name)
      ensures x.id == y.id
    {
      var x0 :| x0 in ps + ss && x0.id == x.id && x0.name == x.name;
      var y0 :| y0 in ps + ss && y0.id == y.id && y0.name == y.name;
    }
  }

  /** Changing fields other than id, name and isHost of entries keeps the whole invariant. */
  lemma {:induction false} SameShapeKeepsInv(st: RoomState, st': RoomState)
    requires Inv(st)
    requires |st'.players| == |st.players| && |st'.spectators| == |st.spectators|
    requires forall i :: 0 <= i < |st.players| ==>
      st'.players[i].id == st.players[i].id && st'.players[i].name == st.players[i].name
      && st'.players[i].isHost == st.players[i].isHost
    requires forall i :: 0 <= i < |st.spectators| ==>
      st'.spectators[i].id == st.spectators[i].id && st'.spectators[i].name == st.spectators[i].name
    requires st'.config == st.config && st'.gameState == st.gameState
    requires st'.currentPhase == st.currentPhase && st'.currentRound == st.currentRound
    ensures Inv(st')
  {
    PointwiseShadows(st.players, st'.players);
    PointwiseShadows(st.spectators, st'.spectators);
    CoreShadows(st.players, st.spectators, st'.players, st'.spectators);
  }

  lemma {:induction false} SetStatusKeepsInv(st: RoomState, i: nat, status: ConnectionStatus)
    requires Inv(st) && i < |st.players| + |st.spectators|
    ensures Inv(SetStatusAt(st, i, status))
  {
    SameShapeKeepsInv(st, SetStatusAt(st, i, status));
  }

  /** The admitted entry differs in id and lowered name from everyone already in the room. */
  lemma {:induction false} AdmitApart(st: RoomState, p: PlayerData)
    requires RosterCore(st.players, st.spectators)
    requires !NameTaken(st.players + st.spectators, p.name)
    requires !HasKey(st.players, PlayerId, p.id) && !HasKey(st.spectators, PlayerId, p.id)
    ensures forall x :: x in st.players + st.spectators ==> x.id != p.id
    ensures forall x :: x in st.players + st.spectators ==> LowerAscii(x.name) != LowerAscii(p.name)
  {
    var all := st.players + st.spectators;
    forall x | x in all ensures x.id != p.id {
      if x in st.players {
        var k :| 0 <= k < |st.players| && st.players[k] == x;
      } else {
        var k :| 0 <= k < |st.spectators| && st.spectators[k] == x;
      }
    }
    forall x | x in all ensures LowerAscii(x.name) != LowerAscii(p.name) {
      var k :| 0 <= k < |all| && all[k] == x;
    }
  }

  /** Appending a fresh entry to the spectators keeps the roster core. */
  lemma {:induction false} AdmitSpectatorCore(ps: seq<PlayerData>, ss: seq<PlayerData>, p: PlayerData)
    requires RosterCore(ps, ss) && NameRegex(p.name)
    requires forall x :: x in ps + ss ==> x.id != p.id
    requires forall x :: x in ps + ss ==> LowerAscii(x.name) != LowerAscii(p.name)
    requires !HasKey(ss, PlayerId, p.id)
    ensures RosterCore(ps, Set(ss, PlayerId, p))
  {
    var ss' := Set(ss, PlayerId, p);
    assert ss' == ss + [p];
    assert forall x :: x in ps + ss' <==> x in ps + ss || x == p;
  }

  /** Appending a fresh entry to the players keeps the roster core. */
  lemma {:induction false} AdmitPlayerCore(ps: seq<PlayerData>, ss: seq<PlayerData>, p: PlayerData)
    requires RosterCore(ps, ss) && NameRegex(p.name)
    requires forall x :: x in ps + ss ==> x.id != p.id
    requires forall x :: x in ps + ss ==> LowerAscii(x.name) != LowerAscii(p.name)
    requires !HasKey(ps, PlayerId, p.id)
    ensures RosterCore(Set(ps, PlayerId, p), ss)
  {
    var ps' := Set(ps, PlayerId, p);
    assert ps' == ps + [p];
    assert forall x :: x in ps' + ss <==> x in ps + ss || x == p;
  }

  /** A fresh, valid, untaken name appended to one of the maps keeps the invariant. */
  lemma {:induction false} AdmitKeepsInv(st: RoomState, p: PlayerData, spectating: bool)
    requires Inv(st)
    requires NameRegex(p.name) && !NameTaken(st.players + st.spectators, p.name)
    requires !HasKey(st.players, PlayerId, p.id) && !HasKey(st.spectators, PlayerId, p.id)
    requires p.isHost == (|st.players| == 0)
    ensures Inv(Admit(st, p, spectating))
  {
    AdmitApart(st, p);
    if spectating {
      AdmitSpectatorCore(st.players, st.spectators, p);
    } else {
      AdmitPlayerCore(st.players, st.spectators, p);
      var ps' := st.players + [p];
      assert Set(st.players, PlayerId, p) == ps';
      forall i | 0 <= i < |ps'| ensures ps'[i].isHost <==> i == 0 {
        if i < |st.players| { assert ps'[i] == st.players[i]; }
      }
    }
  }

  /** Removing an entry that is not the first player keeps the host order. */
  lemma {:induction false} RemoveKeepsHostOrder(ps: seq<PlayerData>, id: string)
    requires UniqueKeys(ps, PlayerId) && HostInvariant(ps)
    ensures var r := Remove(ps, PlayerId, id);
      forall j :: 1 <= j < |r| ==> !r[j].isHost
    ensures !(|ps| > 0 && ps[0].id == id) ==> HostInvariant(Remove(ps, PlayerId, id))
  {
    var r := Remove(ps, PlayerId, id);
    if |ps| > 0 && ps[0].id == id {
      assert r == ps[1..];
    } else if |ps| > 0 {
      assert r[0] == ps[0];
      forall j | 1 <= j < |r| ensures !r[j].isHost {
        assert r[j] in ps && r[j].id != r[0].id;
        var m :| 0 <= m < |ps| && ps[m] == r[j];
      }
    }
  }

  lemma PromoteFirst(ps: seq<PlayerData>)
    requires |ps| > 0 && forall j :: 1 <= j < |ps| ==> !ps[j].isHost
    ensures HostInvariant(ps[0 := ps[0].(isHost := true)])
  {
  }

  // ---------------------------------------------------------------------------
  // Handlers keep the invariant

  lemma {:induction false} InitializeKeepsInv(w: World, roomCode: string)
    requires WorldInv(w)
    ensures WorldInv(Initialize(w, roomCode))
  {
    assert ValidConfig(DEFAULT_CONFIG);
  }

  lemma {:induction false} JoinKeepsInv(w: World, socket: nat, name: string, spectating: bool, e: Entropy)
    requires WorldInv(w) && FreshDraw(w, e)
    ensures WorldInv(HandleJoinRoom(w, socket, name, spectating, e))
  {
    if w.state.Some? && JoinRejection(w.state.value, name, spectating).None? {
      var st := w.state.value;
      var id := GenerateId(e.idUuid);
      var p := NewPlayer(st, id, name, SessionToken(st.roomCode, id, e.now, e.tokenUuid));
      AdmitKeepsInv(st, p, spectating);
    }
  }

  lemma {:induction false} CreateKeepsInv(w: World, socket: nat, name: string, config: RoomConfig, e: Entropy)
    requires WorldInv(w) && FreshDraw(w, e) && ValidConfig(config)
    ensures WorldInv(HandleCreateRoom(w, socket, name, config, e))
  {
    if w.state.Some? {
      JoinKeepsInv(w.(state := Some(w.state.value.(config := config))), socket, name, false, e);
    }
  }

  lemma {:induction false} SetReadyKeepsInv(w: World, socket: nat, ready: bool)
    requires WorldInv(w)
    ensures WorldInv(HandleSetReady(w, socket, ready))
  {
    var k := SessionIndex(w.sessions, socket);
    if k.Some? && w.state.Some? {
      var st := w.state.value;
      var i := IndexOf(st.players, PlayerId, w.sessions[k.value].playerId);
      if i.Some? {
        SameShapeKeepsInv(st, st.(players := st.players[i.value := st.players[i.value].(isReady := ready)]));
      }
    }
  }

  /** `startRound` persists, so it repairs a snapshot taken while the phase was still being set. */
  lemma {:induction false} StartRoundKeepsInv(w: World, now: nat)
    requires w.state.Some? && RosterInv(w.state.value) && UniqueKeys(w.sessions, SessionPlayer)
    requires w.state.value.gameState == Playing && w.state.value.currentRound >= 1
    ensures WorldInv(StartRound(w, now))
  {
  }

  lemma {:induction false} StartGameKeepsInv(w: World, socket: nat, now: nat)
    requires WorldInv(w)
    ensures WorldInv(HandleStartGame(w, socket, now))
  {
    var k := SessionIndex(w.sessions, socket);
    if k.None? || w.state.None? {
      assert HandleStartGame(w, socket, now) == w;
    } else {
      var st := w.state.value;
      var caller := Lookup(st.players, PlayerId, w.sessions[k.value].playerId);
      if caller.None? || !caller.value.isHost {
        assert HandleStartGame(w, socket, now) == SendTo(w, socket, Error(NOT_HOST, "Only host can start game"));
      } else if CountReady(st.players) < MIN_PLAYERS {
        assert HandleStartGame(w, socket, now) == SendTo(w, socket, Error(INVALID_ACTION, "Need at least 3 ready players"));
      } else {
        var st' := st.(gameState := Playing, currentRound := 1);
        var w1 := Broadcast(PersistState(w.(state := Some(st'))), GameStarted(st'.config.rounds, Roster(st'.players)));
        StartRoundKeepsInv(w1, now);
        assert HandleStartGame(w, socket, now) == StartRound(w1, now);
      }
    }
  }

  /** The state `removePlayer` leaves, after `transferHost` where it runs. */
  function AfterRemoval(st: RoomState, id: string, p: PlayerData): RoomState {
    var st1 := st.(players := Remove(st.players, PlayerId, id), spectators := Remove(st.spectators, PlayerId, id));
    if p.isHost && |st1.players| > 0 then st1.(players := st1.players[0 := st1.players[0].(isHost := true)])
    else st1
  }

  lemma {:induction false} RemoveKeepsCore(ps: seq<PlayerData>, ss: seq<PlayerData>, id: string)
    requires RosterCore(ps, ss)
    ensures RosterCore(Remove(ps, PlayerId, id), Remove(ss, PlayerId, id))
  {
    CoreShadows(ps, ss, Remove(ps, PlayerId, id), Remove(ss, PlayerId, id));
  }

  lemma {:induction false} PromoteKeepsCore(ps: seq<PlayerData>, ss: seq<PlayerData>)
    requires RosterCore(ps, ss) && |ps| > 0
    ensures RosterCore(ps[0 := ps[0].(isHost := true)], ss)
  {
    var ps2 := ps[0 := ps[0].(isHost := true)];
    PointwiseShadows(ps, ps2);
    CoreShadows(ps, ss, ps2, ss);
  }

  /** Removing the first player, which is the host, and promoting the next one keeps the invariant. */
  lemma {:induction false} RemovePromoteInv(st: RoomState, id: string)
    requires Inv(st)
    ensures var st1 := st.(players := Remove(st.players, PlayerId, id), spectators := Remove(st.spectators, PlayerId, id));
      |st1.players| > 0 ==> RosterInv(st1.(players := st1.players[0 := st1.players[0].(isHost := true)]))
  {
    var ps1 := Remove(st.players, PlayerId, id);
    var ss1 := Remove(st.spectators, PlayerId, id);
    RemoveKeepsCore(st.players, st.spectators, id);
    RemoveKeepsHostOrder(st.players, id);
    if |ps1| > 0 {
      PromoteKeepsCore(ps1, ss1);
      PromoteFirst(ps1);
    }
  }

  /** Removing an entry that is not host keeps the invariant without any promotion. */
  lemma {:induction false} RemoveNonHostInv(st: RoomState, id: string, p: PlayerData)
    requires Inv(st) && Participant(st, id) == Some(p) && !p.isHost
    ensures RosterInv(st.(players := Remove(st.players, PlayerId, id), spectators := Remove(st.spectators, PlayerId, id)))
  {
    var ps1 := Remove(st.players, PlayerId, id);
    RemoveKeepsCore(st.players, st.spectators, id);
    RemoveKeepsHostOrder(st.players, id);
    var lp := Lookup(st.players, PlayerId, id);
    if lp.Some? {
      var i := IndexOf(st.players, PlayerId, id).value;
      assert st.players[i] == p;
    } else {
      assert ps1 == st.players;
    }
  }

  /** Removing a spectator that is flagged host leaves the players, so their host, unchanged. */
  lemma {:induction false} RemoveSpectatorInv(st: RoomState, id: string, p: PlayerData)
    requires Inv(st) && Participant(st, id) == Some(p) && Lookup(st.players, PlayerId, id).None?
    ensures AfterRemoval(st, id, p) == st.(spectators := Remove(st.spectators, PlayerId, id))
    ensures RosterInv(st.(spectators := Remove(st.spectators, PlayerId, id)))
  {
    assert Remove(st.players, PlayerId, id) == st.players;
    if |st.players| > 0 {
      assert st.players[0].isHost;
      assert st.players[0 := st.players[0].(isHost := true)] == st.players;
    }
    RemoveKeepsCore(st.players, st.spectators, id);
  }

  lemma {:induction false} AfterRemovalInv(st: RoomState, id: string, p: PlayerData)
    requires Inv(st) && Participant(st, id) == Some(p)
    ensures Inv(AfterRemoval(st, id, p))
  {
    if !p.isHost {
      RemoveNonHostInv(st, id, p);
    } else if Lookup(st.players, PlayerId, id).None? {
      RemoveSpectatorInv(st, id, p);
    } else {
      RemovePromoteInv(st, id);
      var i := IndexOf(st.players, PlayerId, id).value;
      assert st.players[i] == p && i == 0;
      assert Remove(st.players, PlayerId, id) == st.players[1..];
    }
  }

  /** `removePlayer` followed, when needed, by `transferHost` restores the invariant. */
  lemma {:induction false} RemovePlayerKeepsInv(w: World, id: string, reason: LeaveReason)
    requires WorldInv(w)
    ensures WorldInv(RemovePlayer(w, id, reason))
  {
    if w.state.Some? && Participant(w.state.value, id).Some? {
      var st := w.state.value;
      var p := Participant(st, id).value;
      AfterRemovalInv(st, id, p);
      RemovalShape(w, id, reason);
    }
  }

  /** What `removePlayer` leaves: the state after removal, persisted, and the session gone. */
  lemma RemovalShape(w: World, id: string, reason: LeaveReason)
    requires w.state.Some? && Participant(w.state.value, id).Some?
    ensures var r := RemovePlayer(w, id, reason);
      && r.state == Some(AfterRemoval(w.state.value, id, Participant(w.state.value, id).value))
      && r.storage == r.state
      && r.sessions == Remove(w.sessions, SessionPlayer, id)
  {
    var st := w.state.value;
    var p := Participant(st, id).value;
    var st1 := st.(players := Remove(st.players, PlayerId, id), spectators := Remove(st.spectators, PlayerId, id));
    var w1 := PersistState(w.(state := Some(st1), sessions := Remove(w.sessions, SessionPlayer, id)));
    var w2 := Broadcast(w1, PlayerLeft(id, p.name, reason));
    assert RemovePlayer(w, id, reason) == if p.isHost && |st1.players| > 0 then TransferHost(w2, id) else w2;
  }

  lemma {:induction false} LeaveKeepsInv(w: World, socket: nat)
    requires WorldInv(w)
    ensures WorldInv(HandleLeaveRoom(w, socket))
  {
    var k := SessionIndex(w.sessions, socket);
    if k.Some? {
      RemovePlayerKeepsInv(w, w.sessions[k.value].playerId, Left);
    }
  }

  lemma {:induction false} PingKeepsInv(w: World, socket: nat, now: nat)
    requires WorldInv(w)
    ensures WorldInv(HandlePing(w, socket, now))
  {
    var k := SessionIndex(w.sessions, socket);
    if k.Some? {
      var ss := w.sessions[k.value := w.sessions[k.value].(lastHeartbeat := now)];
      assert forall i :: 0 <= i < |ss| ==> ss[i].playerId == w.sessions[i].playerId;
    }
  }

  lemma {:induction false} ReconnectKeepsInv(w: World, socket: nat, token: string, now: nat)
    requires WorldInv(w)
    ensures WorldInv(HandleReconnect(w, socket, token, now))
  {
    if w.state.Some? {
      var st := w.state.value;
      var i := IndexOf(st.players + st.spectators, TokenOf, token);
      if i.Some? {
        SetStatusKeepsInv(st, i.value, Connected);
      }
    }
  }

  /** Promoting a player who already holds the host flag changes no state. */
  lemma {:induction false} TransferToHostIsNoop(w: World, previousHostId: string)
    requires WorldInv(w) && w.state.Some? && |w.state.value.players| > 0
    ensures var r := TransferHost(w, previousHostId);
      r.state == w.state && r.storage == w.state && r.sessions == w.sessions
  {
    var ps := w.state.value.players;
    assert ps[0].isHost;
    assert ps[0 := ps[0].(isHost := true)] == ps;
  }

  /** A dropped connection during a game marks the entry `Dropped` and keeps the invariant. */
  lemma {:induction false} DropKeepsInv(w: World, id: string, i: nat)
    requires WorldInv(w) && w.state.Some?
    requires i < |w.state.value.players| + |w.state.value.spectators|
    ensures var st' := SetStatusAt(w.state.value, i, Dropped);
      WorldInv(Broadcast(PersistState(w.(state := Some(st'))), PlayerConnectionChanged(id, Dropped)))
  {
    SetStatusKeepsInv(w.state.value, i, Dropped);
  }

  /** The in-game branch of `handlePlayerDisconnect`. */
  lemma {:induction false} MarkDroppedKeepsInv(w: World, id: string, i: nat)
    requires WorldInv(w) && w.state.Some? && i < |w.state.value.players| + |w.state.value.spectators|
    ensures WorldInv(MarkDropped(w, id, i))
  {
    var st := w.state.value;
    var p := (st.players + st.spectators)[i];
    var st' := SetStatusAt(st, i, Dropped);
    DropKeepsInv(w, id, i);
    var w1 := Broadcast(PersistState(w.(state := Some(st'))), PlayerConnectionChanged(id, Dropped));
    if p.isHost && |st'.players| > 1 {
      TransferToHostIsNoop(w1, id);
    }
  }

  lemma {:induction false} DisconnectKeepsInv(w: World, id: string)
    requires WorldInv(w)
    ensures WorldInv(HandlePlayerDisconnect(w, id))
  {
    if w.state.Some? {
      var st := w.state.value;
      var ip := IndexOf(st.players, PlayerId, id);
      var isp := IndexOf(st.spectators, PlayerId, id);
      if ip.Some? || isp.Some? {
        if st.gameState == LobbyState {
          LobbyDisconnectKeepsInv(w, id);
        } else {
          GameDisconnectKeepsInv(w, id);
        }
      }
    }
  }

  /** In the lobby a disconnect is a removal. */
  lemma LobbyDisconnectKeepsInv(w: World, id: string)
    requires WorldInv(w) && w.state.Some? && w.state.value.gameState == LobbyState
    ensures WorldInv(HandlePlayerDisconnect(w, id))
  {
    var st := w.state.value;
    if IndexOf(st.players, PlayerId, id).Some? || IndexOf(st.spectators, PlayerId, id).Some? {
      assert HandlePlayerDisconnect(w, id) == RemovePlayer(w, id, Disconnected);
      RemovePlayerKeepsInv(w, id, Disconnected);
    }
  }

  /** Outside the lobby a disconnect marks the participant dropped. */
  lemma GameDisconnectKeepsInv(w: World, id: string)
    requires WorldInv(w) && w.state.Some? && w.state.value.gameState != LobbyState
    ensures WorldInv(HandlePlayerDisconnect(w, id))
  {
    var st := w.state.value;
    var ip := IndexOf(st.players, PlayerId, id);
    var isp := IndexOf(st.spectators, PlayerId, id);
    if ip.Some? || isp.Some? {
      var i := if ip.Some? then ip.value else |st.players| + isp.value;
      assert HandlePlayerDisconnect(w, id) == MarkDropped(w, id, i);
      MarkDroppedKeepsInv(w, id, i);
    }
  }

  lemma {:induction false} CloseKeepsInv(w: World, socket: nat)
    requires WorldInv(w)
    ensures WorldInv(HandleClose(w, socket))
  {
    var k := SessionIndex(w.sessions, socket);
    if k.Some? {
      var id := w.sessions[k.value].playerId;
      DisconnectKeepsInv(w.(sessions := Remove(w.sessions, SessionPlayer, id)), id);
    }
  }

  lemma {:induction false} TransitionKeepsInv(w: World, p: Phase, now: nat)
    requires WorldInv(w) && p in {Roles, Details, Questions, Voting, Results}
    requires w.state.Some? ==> w.state.value.gameState == Playing
    ensures WorldInv(TransitionTo(w, p, now))
  {
  }

  lemma {:induction false} RoundEndKeepsInv(w: World, now: nat)
    requires WorldInv(w)
    requires w.state.Some? ==> w.state.value.gameState == Playing
    ensures WorldInv(HandleRoundEnd(w, now))
  {
    if w.state.Some? {
      var st := w.state.value;
      if st.currentRound >= st.config.rounds {
        assert HandleRoundEnd(w, now) == EndGame(w, Completed);
      } else {
        var w1 := w.(state := Some(st.(currentRound := st.currentRound + 1)));
        StartRoundKeepsInv(w1, now);
        assert HandleRoundEnd(w, now) == StartRound(w1, now);
      }
    }
  }

  lemma {:induction false} AlarmKeepsInv(w: World, now: nat)
    requires WorldInv(w)
    ensures WorldInv(Alarm(w, now))
  {
    var w0 := w.(alarmAt := None);
    if w0.state.Some? {
      match w0.state.value.currentPhase
      case Lobby =>
      case Memory => TransitionKeepsInv(w0, Roles, now);
      case Roles => TransitionKeepsInv(w0, Details, now);
      case Details => TransitionKeepsInv(w0, Questions, now);
      case Questions => TransitionKeepsInv(w0, Voting, now);
      case Voting => TransitionKeepsInv(w0, Results, now);
      case Results => RoundEndKeepsInv(w0, now);
    }
  }

  lemma {:induction false} MessageKeepsInv(w: World, socket: nat, m: ClientMessage, e: Entropy)
    requires WorldInv(w) && FreshDraw(w, e) && ValidMessage(m)
    ensures WorldInv(HandleMessage(w, socket, m, e))
  {
    match m
    case JoinRoom(_, name, asSpectator) => JoinKeepsInv(w, socket, name, asSpectator == Some(true), e);
    case CreateRoom(name, config) => CreateKeepsInv(w, socket, name, config, e);
    case SetReady(ready) => SetReadyKeepsInv(w, socket, ready);
    case StartGame => StartGameKeepsInv(w, socket, e.now);
    case LeaveRoom => LeaveKeepsInv(w, socket);
    case Ping(_) => PingKeepsInv(w, socket, e.now);
    case Reconnect(_, token) => ReconnectKeepsInv(w, socket, token, e.now);
    case _ =>
  }

  /** Every frame the room can receive keeps the invariant of the room and of its snapshot. */
  lemma {:induction false} FrameKeepsInv(w: World, socket: nat, frame: Frame, e: Entropy)
    requires WorldInv(w) && FreshDraw(w, e)
    ensures WorldInv(WebSocketMessage(w, socket, frame, e))
  {
    if frame.Text? && frame.json.Some? {
      var m := ParseClientMessage(frame.json.value);
      if m.Some? {
        MessageKeepsInv(w, socket, m.value, e);
      }
    }
  }
}
