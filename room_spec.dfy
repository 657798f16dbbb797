// The game-room actor (packages/server/src/room.ts) as pure transitions over
// a `World`: the in-memory room state (`null` until `initialize` runs), the
// session map, the durable snapshot, the pending alarm and the log of frames
// sent to sockets. Each handler of `GameRoom` is one function here; the class
// in room.dfy implements them imperatively and is proved equal to them.

module RoomSpec {
  import opened Types
  import opened Constants
  import opened Messages
  import opened Keyed

  // ---------------------------------------------------------------------------
  // State

  datatype PlayerData = PlayerData(
    id: string,
    name: string,
    isHost: bool,
    isReady: bool,
    connectionStatus: ConnectionStatus,
    score: int,
    sessionToken: string)

  /** A socket is an opaque handle; two sessions may share one. */
  datatype Session = Session(playerId: string, socket: nat, lastHeartbeat: int, isSpectator: bool)

  /** `players` and `spectators` are maps keyed by id, in insertion order. */
  datatype RoomState = RoomState(
    roomCode: string,
    gameState: GameState,
    config: RoomConfig,
    players: seq<PlayerData>,
    spectators: seq<PlayerData>,
    currentPhase: Phase,
    currentRound: int,
    phaseEndTime: int)

  /** What the room does to a socket: a serialised message, or a close with code and reason. */
  datatype Outgoing = Sent(socket: nat, msg: ServerMessage) | Closed(socket: nat, code: int, reason: string)

  /** An incoming frame: binary, or text that JSON.parse turned into a value or rejected. */
  datatype Frame = Binary | Text(json: Option<Json>)

  /** The clock reading and the two `crypto.randomUUID()` draws a handler may use. */
  datatype Entropy = Entropy(now: nat, idUuid: string, tokenUuid: string)

  datatype World = World(
    state: Option<RoomState>,
    sessions: seq<Session>,
    storage: Option<RoomState>,
    alarmAt: Option<int>,
    outbox: seq<Outgoing>)

  datatype Rejection = Rejection(code: ErrorCode, message: string)

  function PlayerId(p: PlayerData): string { p.id }
  function TokenOf(p: PlayerData): string { p.sessionToken }
  function SessionPlayer(s: Session): string { s.playerId }

  const MEMORY_PROMPT: string :=
    "The last day of summer. A goodbye at a train station. Something was left behind on the platform."
  const DETAIL_QUESTION: string := "What was the weather like?"

  // ---------------------------------------------------------------------------
  // Derived values

  /** `String.prototype.toLowerCase` on the ASCII range. */
  function LowerAscii(s: string): string {
    seq(|s|, i requires 0 <= i < |s| => if 'A' <= s[i] <= 'Z' then (s[i] as int + 32) as char else s[i])
  }

  /** The `isNameTaken` test of the join path: some entry's name equals `name` ignoring case. */
  predicate NameTaken(all: seq<PlayerData>, name: string) {
    exists i :: 0 <= i < |all| && LowerAscii(all[i].name) == LowerAscii(name)
  }

  /** `playerDataToPlayer`; the voice status is always reported as disconnected. */
  function ToPlayer(p: PlayerData): Player {
    Player(p.id, p.name, p.isHost, p.isReady, p.connectionStatus, VoiceDisconnected, p.score)
  }

  function PlayersArray(ps: seq<PlayerData>): seq<Player> {
    seq(|ps|, i requires 0 <= i < |ps| => ToPlayer(ps[i]))
  }

  /** The `{id, name}` list of `game_started`. */
  function Roster(ps: seq<PlayerData>): seq<(string, string)> {
    seq(|ps|, i requires 0 <= i < |ps| => (ps[i].id, ps[i].name))
  }

  /** `Object.fromEntries(players.map(p => [p.id, p.score]))`: later entries win. */
  function Scores(ps: seq<PlayerData>): map<string, int> {
    if ps == [] then map[] else Scores(ps[..|ps| - 1])[ps[|ps| - 1].id := ps[|ps| - 1].score]
  }

  /** The number of players whose `isReady` is set. */
  function CountReady(ps: seq<PlayerData>): nat {
    if ps == [] then 0 else (if ps[0].isReady then 1 else 0) + CountReady(ps[1..])
  }

  /**
   * The first element after a stable sort by descending score: the highest
   * score, and among equal scores the earliest entry.
   */
  function TopScorer(ps: seq<PlayerData>): (k: nat)
    requires |ps| > 0
    ensures k < |ps|
    ensures forall j :: 0 <= j < |ps| ==> ps[j].score <= ps[k].score
    ensures forall j :: 0 <= j < k ==> ps[j].score < ps[k].score
  {
    if |ps| == 1 then 0
    else
      var k := TopScorer(ps[..|ps| - 1]);
      if ps[|ps| - 1].score > ps[k].score then |ps| - 1 else k
  }

  /** The `winner` of `game_finished`; the empty placeholder when there are no players. */
  function WinnerOf(ps: seq<PlayerData>): (w: Winner)
    ensures ps == [] ==> w == Winner("", "", 0)
    ensures ps != [] ==>
      (exists k :: 0 <= k < |ps| && w == Winner(ps[k].id, ps[k].name, ps[k].score)
        && (forall j :: 0 <= j < |ps| ==> ps[j].score <= w.score)
        && (forall j :: 0 <= j < k ==> ps[j].score < w.score))
  {
    if ps == [] then Winner("", "", 0)
    else
      var k := TopScorer(ps);
      Winner(ps[k].id, ps[k].name, ps[k].score)
  }

  /** `Math.round(PHASE_DURATIONS[p] * timeScale)`. */
  function ScaledDuration(p: Phase, timeScale: real): (ms: int)
    requires p != Lobby
    ensures timeScale >= 0.5 ==> ms >= 2500
    ensures timeScale == 1.0 ==> ms == PhaseDuration(p)
  {
    (PhaseDuration(p) as real * timeScale + 0.5).Floor
  }

  function Take(s: string, n: nat): (r: string)
    ensures |r| == if |s| <= n then |s| else n
    ensures r <= s
  {
    if |s| <= n then s else s[..n]
  }

  function StripDashes(s: string): (r: string)
    ensures '-' !in r
    ensures forall c :: c in r ==> c in s
  {
    if s == [] then []
    else (if s[0] == '-' then [] else [s[0]]) + StripDashes(s[1..])
  }

  /** `generateId`: "p" followed by the first 8 characters of a UUID with the dashes removed. */
  function GenerateId(uuid: string): (id: string)
    ensures |id| >= 1 && id[0] == 'p' && |id| <= 9
    ensures '.' !in uuid ==> '.' !in id
  {
    "p" + Take(StripDashes(uuid), 8)
  }

  /** `generateSessionToken`: room code, id, timestamp and 8 UUID characters, joined by dots. */
  function SessionToken(roomCode: string, id: string, now: nat, uuid: string): string {
    roomCode + "." + id + "." + NatToString(now) + "." + Take(uuid, 8)
  }

  /** A fresh room, as `initialize` builds it when storage holds nothing. */
  function NewRoom(roomCode: string): (r: RoomState)
    ensures r.roomCode == roomCode && r.players == [] && r.spectators == []
    ensures r.gameState == LobbyState && r.currentPhase == Lobby
    ensures r.currentRound == 0 && r.phaseEndTime == 0 && r.config == DEFAULT_CONFIG
  {
    RoomState(roomCode, LobbyState, DEFAULT_CONFIG, [], [], Lobby, 0, 0)
  }

  /** Position of the first session bound to `socket` (`findSessionBySocket`). */
  function SessionIndex(ss: seq<Session>, socket: nat): (r: Option<nat>)
    ensures r.Some? ==> r.value < |ss| && ss[r.value].socket == socket
    ensures r.Some? ==> forall j :: 0 <= j < r.value ==> ss[j].socket != socket
    ensures r.None? ==> forall j :: 0 <= j < |ss| ==> ss[j].socket != socket
  {
    if ss == [] then None
    else if ss[0].socket == socket then Some(0)
    else
      match SessionIndex(ss[1..], socket)
      case None =>
        assert forall j :: 1 <= j < |ss| ==> ss[j] == ss[1..][j - 1];
        None
      case Some(i) =>
        assert forall j :: 1 <= j <= i ==> ss[j] == ss[1..][j - 1];
        Some(i + 1)
  }

  /** The frames `broadcast` writes: one per session, in session order. */
  function BroadcastLog(ss: seq<Session>, msg: ServerMessage): seq<Outgoing> {
    if ss == [] then [] else BroadcastLog(ss[..|ss| - 1], msg) + [Sent(ss[|ss| - 1].socket, msg)]
  }

  /** The frames `broadcastExcept` writes: every session but those of `excluded`, in order. */
  function ExceptLog(ss: seq<Session>, excluded: string, msg: ServerMessage): seq<Outgoing> {
    if ss == [] then []
    else
      var last := ss[|ss| - 1];
      ExceptLog(ss[..|ss| - 1], excluded, msg) + (if last.playerId != excluded then [Sent(last.socket, msg)] else [])
  }

  // ---------------------------------------------------------------------------
  // Runtime effects

  /** `persistState`: the durable snapshot becomes the in-memory state (nothing when it is null). */
  function PersistState(w: World): World {
    if w.state.None? then w else w.(storage := w.state)
  }

  function SendTo(w: World, socket: nat, msg: ServerMessage): World {
    w.(outbox := w.outbox + [Sent(socket, msg)])
  }

  function Broadcast(w: World, msg: ServerMessage): World {
    w.(outbox := w.outbox + BroadcastLog(w.sessions, msg))
  }

  function BroadcastExcept(w: World, excluded: string, msg: ServerMessage): World {
    w.(outbox := w.outbox + ExceptLog(w.sessions, excluded, msg))
  }

  // ---------------------------------------------------------------------------
  // Handlers

  /** `initialize`: restore the stored snapshot if any, otherwise create and persist a fresh room. */
  function Initialize(w: World, roomCode: string): World {
    if w.storage.Some? then w.(state := w.storage)
    else PersistState(w.(state := Some(NewRoom(roomCode))))
  }

  /** The admission checks of `handleJoinRoom`, in the order they run. */
  function JoinRejection(st: RoomState, name: string, spectating: bool): Option<Rejection> {
    if !NameRegex(name) then Some(Rejection(INVALID_MESSAGE, "Invalid player name"))
    else if NameTaken(st.players + st.spectators, name) then Some(Rejection(NAME_TAKEN, "Name already taken"))
    else if !spectating && |st.players| as real >= st.config.maxPlayers then Some(Rejection(ROOM_FULL, "Room is full"))
    else if st.gameState == Playing && !spectating then Some(Rejection(GAME_IN_PROGRESS, "Game already in progress"))
    else None
  }

  /** The record a successful join stores: host exactly when there were no players. */
  function NewPlayer(st: RoomState, id: string, name: string, token: string): PlayerData {
    PlayerData(id, name, |st.players| == 0, false, Connected, 0, token)
  }

  function Admit(st: RoomState, p: PlayerData, spectating: bool): RoomState {
    if spectating then st.(spectators := Set(st.spectators, PlayerId, p))
    else st.(players := Set(st.players, PlayerId, p))
  }

  /** `handleJoinRoom`; the payload's room code plays no part. */
  function HandleJoinRoom(w: World, socket: nat, name: string, spectating: bool, e: Entropy): World {
    if w.state.None? then SendTo(w, socket, Error(ROOM_NOT_FOUND, "Room does not exist"))
    else
      var st := w.state.value;
      match JoinRejection(st, name, spectating)
      case Some(rej) => SendTo(w, socket, Error(rej.code, rej.message))
      case None =>
        var id := GenerateId(e.idUuid);
        var token := SessionToken(st.roomCode, id, e.now, e.tokenUuid);
        var p := NewPlayer(st, id, name, token);
        var st' := Admit(st, p, spectating);
        var w1 := PersistState(w.(state := Some(st'),
                                  sessions := Set(w.sessions, SessionPlayer, Session(id, socket, e.now, spectating))));
        var w2 := SendTo(w1, socket, RoomJoined(st'.roomCode, token, id, p.isHost, spectating,
                                                PlayersArray(st'.players), PlayersArray(st'.spectators), st'.config));
        BroadcastExcept(w2, id, PlayerJoined(ToPlayer(p), spectating))
  }

  /** `handleCreateRoom`: the configuration is replaced before the join checks run. */
  function HandleCreateRoom(w: World, socket: nat, name: string, config: RoomConfig, e: Entropy): World {
    if w.state.None? then SendTo(w, socket, Error(ROOM_NOT_FOUND, "Room not initialized"))
    else HandleJoinRoom(w.(state := Some(w.state.value.(config := config))), socket, name, false, e)
  }

  function HandleSetReady(w: World, socket: nat, ready: bool): World {
    match SessionIndex(w.sessions, socket)
    case None => w
    case Some(k) =>
      if w.state.None? then w
      else
        var st, id := w.state.value, w.sessions[k].playerId;
        match IndexOf(st.players, PlayerId, id)
        case None => w
        case Some(i) =>
          var st' := st.(players := st.players[i := st.players[i].(isReady := ready)]);
          Broadcast(PersistState(w.(state := Some(st'))), PlayerReadyChanged(id, ready))
  }

  /** `startRound`: enter the memory phase, announce it and set the alarm at its end. */
  function StartRound(w: World, now: nat): World {
    if w.state.None? then w
    else
      var st := w.state.value;
      var d := ScaledDuration(Memory, st.config.timeScale);
      var st' := st.(currentPhase := Memory, phaseEndTime := now + d);
      var w1 := Broadcast(PersistState(w.(state := Some(st'))), RoundStarted(st'.currentRound, st'.config.rounds));
      var w2 := Broadcast(w1, MemoryRevealed(MEMORY_PROMPT, d));
      w2.(alarmAt := Some(st'.phaseEndTime))
  }

  /** `handleStartGame`; the game state is not consulted. */
  function HandleStartGame(w: World, socket: nat, now: nat): World {
    match SessionIndex(w.sessions, socket)
    case None => w
    case Some(k) =>
      if w.state.None? then w
      else
        var st := w.state.value;
        var caller := Lookup(st.players, PlayerId, w.sessions[k].playerId);
        if caller.None? || !caller.value.isHost then
          SendTo(w, socket, Error(NOT_HOST, "Only host can start game"))
        else if CountReady(st.players) < MIN_PLAYERS then
          SendTo(w, socket, Error(INVALID_ACTION, "Need at least 3 ready players"))
        else
          var st' := st.(gameState := Playing, currentRound := 1);
          var w1 := Broadcast(PersistState(w.(state := Some(st'))), GameStarted(st'.config.rounds, Roster(st'.players)));
          StartRound(w1, now)
  }

  /** `transferHost`: the first player becomes host; the previous host's flag is not cleared. */
  function TransferHost(w: World, previousHostId: string): World {
    if w.state.None? || |w.state.value.players| == 0 then w
    else
      var st := w.state.value;
      var h := st.players[0];
      var st' := st.(players := st.players[0 := h.(isHost := true)]);
      Broadcast(PersistState(w.(state := Some(st'))), HostTransferred(h.id, h.name, previousHostId))
  }

  /** The entry `players.get(id) || spectators.get(id)`. */
  function Participant(st: RoomState, id: string): Option<PlayerData> {
    var p := Lookup(st.players, PlayerId, id);
    if p.Some? then p else Lookup(st.spectators, PlayerId, id)
  }

  /** `removePlayer`: drop the entry and its session, announce it, and re-elect a host if it was one. */
  function RemovePlayer(w: World, id: string, reason: LeaveReason): World {
    if w.state.None? then w
    else
      var st := w.state.value;
      match Participant(st, id)
      case None => w
      case Some(p) =>
        var st' := st.(players := Remove(st.players, PlayerId, id), spectators := Remove(st.spectators, PlayerId, id));
        var w1 := PersistState(w.(state := Some(st'), sessions := Remove(w.sessions, SessionPlayer, id)));
        var w2 := Broadcast(w1, PlayerLeft(id, p.name, reason));
        if p.isHost && |st'.players| > 0 then TransferHost(w2, id) else w2
  }

  function HandleLeaveRoom(w: World, socket: nat): World {
    match SessionIndex(w.sessions, socket)
    case None => w
    case Some(k) =>
      var w1 := RemovePlayer(w, w.sessions[k].playerId, Left);
      w1.(outbox := w1.outbox + [Closed(socket, 1000, "Left room")])
  }

  /** `handlePing`: refresh the sender's heartbeat, if it has a session, and always answer. */
  function HandlePing(w: World, socket: nat, now: nat): World {
    var w1 := match SessionIndex(w.sessions, socket)
      case None => w
      case Some(k) => w.(sessions := w.sessions[k := w.sessions[k].(lastHeartbeat := now)]);
    SendTo(w1, socket, Pong(now))
  }

  /** Set the status of the entry at position `i` of `players + spectators`. */
  function SetStatusAt(st: RoomState, i: nat, status: ConnectionStatus): RoomState
    requires i < |st.players| + |st.spectators|
  {
    if i < |st.players| then st.(players := st.players[i := st.players[i].(connectionStatus := status)])
    else
      var j := i - |st.players|;
      st.(spectators := st.spectators[j := st.spectators[j].(connectionStatus := status)])
  }

  /** `handleReconnect`: the first entry holding the token is marked connected and rebound to the socket. */
  function HandleReconnect(w: World, socket: nat, token: string, now: nat): World {
    if w.state.None? then SendTo(w, socket, Error(ROOM_NOT_FOUND, "Room does not exist"))
    else
      var st := w.state.value;
      var all := st.players + st.spectators;
      match IndexOf(all, TokenOf, token)
      case None => SendTo(w, socket, Error(INVALID_SESSION, "Invalid session token"))
      case Some(i) =>
        var p := all[i];
        var st' := SetStatusAt(st, i, Connected);
        var s := Session(p.id, socket, now, IndexOf(st.spectators, PlayerId, p.id).Some?);
        var w1 := PersistState(w.(state := Some(st'), sessions := Set(w.sessions, SessionPlayer, s)));
        SendTo(w1, socket, ReconnectSuccess(st'.gameState, st'.currentPhase, st'.currentRound,
                                            None, None, None, Some(PlayersArray(st'.players)), Scores(st'.players)))
  }

  /** `handlePlayerDisconnect`: removal in the lobby, otherwise the slot is kept and marked dropped. */
  function HandlePlayerDisconnect(w: World, id: string): World {
    if w.state.None? then w
    else
      var st := w.state.value;
      var ip := IndexOf(st.players, PlayerId, id);
      var isp := IndexOf(st.spectators, PlayerId, id);
      if ip.None? && isp.None? then w
      else if st.gameState == LobbyState then RemovePlayer(w, id, Disconnected)
      else MarkDropped(w, id, if ip.Some? then ip.value else |st.players| + isp.value)
  }

  /**
   * The in-game half of `handlePlayerDisconnect`: the entry at position `i`
   * of players-then-spectators is marked dropped and announced, and a host
   * with other players left is handed to `transferHost`.
   */
  function MarkDropped(w: World, id: string, i: nat): World
    requires w.state.Some? && i < |w.state.value.players| + |w.state.value.spectators|
  {
    var st := w.state.value;
    var p := (st.players + st.spectators)[i];
    var st' := SetStatusAt(st, i, Dropped);
    var w1 := Broadcast(PersistState(w.(state := Some(st'))), PlayerConnectionChanged(id, Dropped));
    if p.isHost && |st'.players| > 1 then TransferHost(w1, id) else w1
  }

  /** `webSocketClose` (and `webSocketError`): forget the socket's session, then handle the disconnect. */
  function HandleClose(w: World, socket: nat): World {
    match SessionIndex(w.sessions, socket)
    case None => w
    case Some(k) =>
      var id := w.sessions[k].playerId;
      HandlePlayerDisconnect(w.(sessions := Remove(w.sessions, SessionPlayer, id)), id)
  }

  /** The `transitionTo*` methods: enter `p`, persist, announce where the source does, set the alarm. */
  function TransitionTo(w: World, p: Phase, now: nat): World
    requires p in {Roles, Details, Questions, Voting, Results}
  {
    if w.state.None? then w
    else
      var st := w.state.value;
      var d := ScaledDuration(p, st.config.timeScale);
      var st' := st.(currentPhase := p, phaseEndTime := now + d);
      var w1 := PersistState(w.(state := Some(st')));
      var w2 := if p == Details then Broadcast(w1, DetailQuestion(DETAIL_QUESTION, d))
                else if p == Voting then Broadcast(w1, VotingStarted(d))
                else w1;
      w2.(alarmAt := Some(st'.phaseEndTime))
  }

  /** `endGame`: finished, back to the lobby phase, and the final scores with the winner. */
  function EndGame(w: World, reason: GameFinishedReason): World {
    if w.state.None? then w
    else
      var st := w.state.value;
      var st' := st.(gameState := Finished, currentPhase := Lobby);
      Broadcast(PersistState(w.(state := Some(st'))),
                GameFinished(reason, Scores(st'.players), WinnerOf(st'.players), st'.currentRound, st'.config.rounds))
  }

  function HandleRoundEnd(w: World, now: nat): World {
    if w.state.None? then w
    else
      var st := w.state.value;
      if st.currentRound >= st.config.rounds then EndGame(w, Completed)
      else StartRound(w.(state := Some(st.(currentRound := st.currentRound + 1))), now)
  }

  /** `alarm`: the pending alarm is consumed, then the phase advances (nothing in the lobby). */
  function Alarm(w: World, now: nat): World {
    var w0 := w.(alarmAt := None);
    if w0.state.None? then w0
    else
      match w0.state.value.currentPhase
      case Lobby => w0
      case Memory => TransitionTo(w0, Roles, now)
      case Roles => TransitionTo(w0, Details, now)
      case Details => TransitionTo(w0, Questions, now)
      case Questions => TransitionTo(w0, Voting, now)
      case Voting => TransitionTo(w0, Results, now)
      case Results => HandleRoundEnd(w0, now)
  }

  /** `handleMessage`: the round-play handlers and the voice messages change nothing. */
  function HandleMessage(w: World, socket: nat, m: ClientMessage, e: Entropy): World {
    match m
    case JoinRoom(_, name, asSpectator) => HandleJoinRoom(w, socket, name, asSpectator == Some(true), e)
    case CreateRoom(name, config) => HandleCreateRoom(w, socket, name, config, e)
    case SetReady(ready) => HandleSetReady(w, socket, ready)
    case StartGame => HandleStartGame(w, socket, e.now)
    case LeaveRoom => HandleLeaveRoom(w, socket)
    case Ping(_) => HandlePing(w, socket, e.now)
    case Reconnect(_, token) => HandleReconnect(w, socket, token, e.now)
    case _ => w
  }

  /** `webSocketMessage`: binary frames are ignored, malformed text is answered with INVALID_MESSAGE. */
  function WebSocketMessage(w: World, socket: nat, frame: Frame, e: Entropy): World {
    match frame
    case Binary => w
    case Text(None) => SendTo(w, socket, Error(INVALID_MESSAGE, "Failed to parse message"))
    case Text(Some(j)) =>
      match ParseClientMessage(j)
      case None => SendTo(w, socket, Error(INVALID_MESSAGE, "Invalid message format"))
      case Some(m) => HandleMessage(w, socket, m, e)
  }
}
