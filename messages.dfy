// The wire protocol (packages/shared/src/messages.ts): the client-message
// schemas as predicates and a decoder over already-parsed JSON, and the
// server-message kinds.

module Messages {
  import opened Types
  import opened Constants

  /**
   * A value produced by JSON.parse. Objects are maps: JSON.parse has already
   * collapsed duplicate keys (the last one wins), and key order does not
   * matter to any schema.
   */
  datatype Json =
    | JNull
    | JBool(b: bool)
    | JNum(n: real)
    | JStr(s: string)
    | JArr(items: seq<Json>)
    | JObj(fields: map<string, Json>)

  /** A client message after validation: one constructor per schema. */
  datatype ClientMessage =
    | CreateRoom(playerName: string, config: RoomConfig)
    | JoinRoom(roomCode: string, playerName: string, asSpectator: Option<bool>)
    | SetReady(ready: bool)
    | StartGame
    | LeaveRoom
    | Reconnect(roomCode: string, sessionToken: string)
    | Ping(clientTime: real)
    | SubmitDetail(answer: string)
    | AskQuestion(targetPlayerId: string, question: string)
    | AnswerQuestion(questionId: string, answer: string)
    | CallVote
    | CastVote(targetPlayerId: string)
    | ContinueGame
    | VoiceMute(muted: bool)
    | VoiceDeafen(deafened: bool)

  /** The messages the server sends and the client reduces. */
  datatype ServerMessage =
    | RoomCreated(roomCode: string, sessionToken: string, playerId: string, config: RoomConfig)
    | RoomJoined(roomCode: string, sessionToken: string, playerId: string, isHost: bool,
                 isSpectator: bool, players: seq<Player>, spectators: seq<Player>, config: RoomConfig)
    | PlayerJoined(player: Player, isSpectator: bool)
    | PlayerLeft(playerId: string, playerName: string, reason: LeaveReason)
    | PlayerReadyChanged(playerId: string, ready: bool)
    | PlayerConnectionChanged(playerId: string, status: ConnectionStatus)
    | PlayerVoiceChanged(playerId: string, voiceStatus: VoiceStatus)
    | HostTransferred(newHostId: string, newHostName: string, previousHostId: string)
    | GameStarted(totalRounds: int, roster: seq<(string, string)>)
    | RoundStarted(roundNumber: int, totalRounds: int)
    | MemoryRevealed(prompt: string, timeRemaining: int)
    | RoleAssigned(role: Role, fragments: Option<seq<string>>, hints: Option<seq<string>>, timeRemaining: int)
    | DetailQuestion(question: string, timeRemaining: int)
    | PlayerSubmittedDetail(playerId: string, playerName: string)
    | DetailsRevealed(details: map<string, string>, timeRemaining: int)
    | QuestionAsked(questionId: string, fromPlayerId: string, fromPlayerName: string,
                    toPlayerId: string, toPlayerName: string, question: string)
    | QuestionAnswered(questionId: string, answer: string)
    | VoteCallUpdate(callerId: string, callerName: string, currentCalls: int, requiredCalls: int)
    | VotingStarted(timeRemaining: int)
    | PlayerVoted(playerId: string, playerName: string)
    | RoundResults(totalScores: map<string, int>, timeRemaining: int)
    | RoundVoided(voidReason: RoundVoidReason, message: string)
    | GameFinished(finishReason: GameFinishedReason, finalScores: map<string, int>, winner: Winner,
                   roundsCompleted: int, roundsTotal: int)
    | PhaseTimeUpdate(timeRemaining: int)
    | ReconnectSuccess(gameState: GameState, currentPhase: Phase, roundNumber: int,
                       yourRole: Option<Role>, yourFragments: Option<seq<string>>,
                       yourHints: Option<seq<string>>, playerList: Option<seq<Player>>,
                       scores: map<string, int>)
    | Pong(serverTime: int)
    | Error(code: ErrorCode, message: string)
    | RoomClosed(closeReason: RoomClosedReason)

  // ---------------------------------------------------------------------------
  // Field schemas

  /** `playerNameSchema`: 1 to 20 characters, all in `[a-zA-Z0-9_-]`. */
  predicate PlayerNameOk(s: string) {
    1 <= |s| <= 20 && forall i :: 0 <= i < |s| ==> IsNameChar(s[i])
  }

  /** `roomCodeSchema`: exactly 6 characters, all in `[A-Z0-9]`. */
  predicate RoomCodeOk(s: string) {
    |s| == 6 && forall i :: 0 <= i < |s| ==> IsCodeChar(s[i])
  }

  /** The `config` object schema of `create_room`. */
  predicate ValidConfig(c: RoomConfig) {
    && (c.rounds == 3 || c.rounds == 5 || c.rounds == 7)
    && 0.5 <= c.timeScale <= 1.5
    && 3.0 <= c.maxPlayers <= 8.0
    && (c.witnessCount == Auto || c.witnessCount == Count(1) || c.witnessCount == Count(2))
  }

  /** The field constraints every schema puts on its payload. */
  predicate ValidMessage(m: ClientMessage) {
    match m
    case CreateRoom(name, config) => PlayerNameOk(name) && ValidConfig(config)
    case JoinRoom(code, name, _) => RoomCodeOk(code) && PlayerNameOk(name)
    case Reconnect(code, _) => RoomCodeOk(code)
    case SubmitDetail(answer) => |answer| <= 280
    case AskQuestion(_, question) => |question| <= 200
    case AnswerQuestion(_, answer) => |answer| <= 200
    case _ => true
  }

  /** The 15 `type` literals of `ClientMessageSchema`. */
  const KINDS: set<string> := {
    "create_room", "join_room", "set_ready", "start_game", "leave_room", "reconnect", "ping",
    "submit_detail", "ask_question", "answer_question", "call_vote", "cast_vote",
    "continue_game", "voice_mute", "voice_deafen"}

  function KindOf(m: ClientMessage): (k: string)
    ensures k in KINDS
  {
    match m
    case CreateRoom(_, _) => "create_room"
    case JoinRoom(_, _, _) => "join_room"
    case SetReady(_) => "set_ready"
    case StartGame => "start_game"
    case LeaveRoom => "leave_room"
    case Reconnect(_, _) => "reconnect"
    case Ping(_) => "ping"
    case SubmitDetail(_) => "submit_detail"
    case AskQuestion(_, _) => "ask_question"
    case AnswerQuestion(_, _) => "answer_question"
    case CallVote => "call_vote"
    case CastVote(_) => "cast_vote"
    case ContinueGame => "continue_game"
    case VoiceMute(_) => "voice_mute"
    case VoiceDeafen(_) => "voice_deafen"
  }

  // ---------------------------------------------------------------------------
  // Decoding (zod `safeParse`)

  function Get(j: Json, key: string): Option<Json> {
    if j.JObj? && key in j.fields then Some(j.fields[key]) else None
  }

  function AsString(v: Option<Json>): Option<string> {
    if v.Some? && v.value.JStr? then Some(v.value.s) else None
  }

  function AsBool(v: Option<Json>): Option<bool> {
    if v.Some? && v.value.JBool? then Some(v.value.b) else None
  }

  function AsNumber(v: Option<Json>): Option<real> {
    if v.Some? && v.value.JNum? then Some(v.value.n) else None
  }

  function ParsePlayerName(v: Option<Json>): (r: Option<string>)
    ensures r.Some? ==> PlayerNameOk(r.value)
  {
    var s := AsString(v);
    if s.Some? && PlayerNameOk(s.value) then s else None
  }

  function ParseRoomCode(v: Option<Json>): (r: Option<string>)
    ensures r.Some? ==> RoomCodeOk(r.value)
  {
    var s := AsString(v);
    if s.Some? && RoomCodeOk(s.value) then s else None
  }

  /** `z.string().max(limit)` */
  function ParseBoundedString(v: Option<Json>, limit: nat): (r: Option<string>)
    ensures r.Some? ==> |r.value| <= limit
  {
    var s := AsString(v);
    if s.Some? && |s.value| <= limit then s else None
  }

  function ParseRounds(v: Option<Json>): Option<int> {
    var n := AsNumber(v);
    if n == Some(3.0) then Some(3)
    else if n == Some(5.0) then Some(5)
    else if n == Some(7.0) then Some(7)
    else None
  }

  function ParseWitnessCount(v: Option<Json>): Option<WitnessCount> {
    if v == Some(JStr("auto")) then Some(Auto)
    else if v == Some(JNum(1.0)) then Some(Count(1))
    else if v == Some(JNum(2.0)) then Some(Count(2))
    else None
  }

  /** An object value: `z.object` rejects null, arrays and primitives. */
  function AsObject(v: Option<Json>): Option<Json> {
    if v.Some? && v.value.JObj? then v else None
  }

  function ParseConfig(v: Option<Json>): Option<RoomConfig> {
    var o := AsObject(v);
    if o.None? then None
    else
      var c := o.value;
      var rounds := ParseRounds(Get(c, "rounds"));
      var timeScale := AsNumber(Get(c, "timeScale"));
      var maxPlayers := AsNumber(Get(c, "maxPlayers"));
      var witnessCount := ParseWitnessCount(Get(c, "witnessCount"));
      var allowSpectators := AsBool(Get(c, "allowSpectators"));
      var voiceEnabled := AsBool(Get(c, "voiceEnabled"));
      if && rounds.Some? && timeScale.Some? && maxPlayers.Some? && witnessCount.Some?
         && allowSpectators.Some? && voiceEnabled.Some?
         && 0.5 <= timeScale.value <= 1.5 && 3.0 <= maxPlayers.value <= 8.0
      then Some(RoomConfig(rounds.value, timeScale.value, maxPlayers.value, witnessCount.value,
                           allowSpectators.value, voiceEnabled.value))
      else None
  }

  /** The payload schema selected by the `type` discriminator. */
  function ParsePayload(kind: string, p: Json): (r: Option<ClientMessage>)
    requires p.JObj?
    ensures r.Some? ==> ValidMessage(r.value) && KindOf(r.value) == kind
  {
    match kind
    case "create_room" =>
      var name := ParsePlayerName(Get(p, "playerName"));
      var config := ParseConfig(Get(p, "config"));
      if name.Some? && config.Some? then Some(CreateRoom(name.value, config.value)) else None
    case "join_room" =>
      var code := ParseRoomCode(Get(p, "roomCode"));
      var name := ParsePlayerName(Get(p, "playerName"));
      var spectator := Get(p, "asSpectator");
      if code.Some? && name.Some? && (spectator.None? || spectator.value.JBool?)
      then Some(JoinRoom(code.value, name.value, AsBool(spectator)))
      else None
    case "set_ready" =>
      var ready := AsBool(Get(p, "ready"));
      if ready.Some? then Some(SetReady(ready.value)) else None
    case "start_game" => Some(StartGame)
    case "leave_room" => Some(LeaveRoom)
    case "reconnect" =>
      var code := ParseRoomCode(Get(p, "roomCode"));
      var token := AsString(Get(p, "sessionToken"));
      if code.Some? && token.Some? then Some(Reconnect(code.value, token.value)) else None
    case "ping" =>
      var t := AsNumber(Get(p, "clientTime"));
      if t.Some? then Some(Ping(t.value)) else None
    case "submit_detail" =>
      var answer := ParseBoundedString(Get(p, "answer"), 280);
      if answer.Some? then Some(SubmitDetail(answer.value)) else None
    case "ask_question" =>
      var target := AsString(Get(p, "targetPlayerId"));
      var question := ParseBoundedString(Get(p, "question"), 200);
      if target.Some? && question.Some? then Some(AskQuestion(target.value, question.value)) else None
    case "answer_question" =>
      var qid := AsString(Get(p, "questionId"));
      var answer := ParseBoundedString(Get(p, "answer"), 200);
      if qid.Some? && answer.Some? then Some(AnswerQuestion(qid.value, answer.value)) else None
    case "call_vote" => Some(CallVote)
    case "cast_vote" =>
      var target := AsString(Get(p, "targetPlayerId"));
      if target.Some? then Some(CastVote(target.value)) else None
    case "continue_game" => Some(ContinueGame)
    case "voice_mute" =>
      var muted := AsBool(Get(p, "muted"));
      if muted.Some? then Some(VoiceMute(muted.value)) else None
    case "voice_deafen" =>
      var deafened := AsBool(Get(p, "deafened"));
      if deafened.Some? then Some(VoiceDeafen(deafened.value)) else None
    case _ => None
  }

  /**
   * `ClientMessageSchema.safeParse`: the value must be an object whose `type`
   * is one of the 15 literals and whose `payload` object satisfies that
   * kind's schema. Every accepted message satisfies its field constraints
   * and keeps the kind it was sent with.
   */
  function ParseClientMessage(j: Json): (r: Option<ClientMessage>)
    ensures r.Some? ==> ValidMessage(r.value)
    ensures r.Some? ==> Get(j, "type") == Some(JStr(KindOf(r.value)))
    ensures r.Some? ==> AsObject(Get(j, "payload")).Some?
  {
    var kind := AsString(Get(j, "type"));
    var payload := AsObject(Get(j, "payload"));
    if j.JObj? && kind.Some? && kind.value in KINDS && payload.Some?
    then ParsePayload(kind.value, payload.value)
    else None
  }

  // ---------------------------------------------------------------------------
  // Encoding (what `JSON.stringify` then `JSON.parse` yields for a message)

  function EncodeConfig(c: RoomConfig): Json {
    JObj(map[
      "rounds" := JNum(c.rounds as real),
      "timeScale" := JNum(c.timeScale),
      "maxPlayers" := JNum(c.maxPlayers),
      "witnessCount" := (match c.witnessCount
                         case Auto => JStr("auto")
                         case Count(n) => JNum(n as real)),
      "allowSpectators" := JBool(c.allowSpectators),
      "voiceEnabled" := JBool(c.voiceEnabled)])
  }

  function EncodePayload(m: ClientMessage): map<string, Json> {
    match m
    case CreateRoom(name, config) => map["playerName" := JStr(name), "config" := EncodeConfig(config)]
    case JoinRoom(code, name, spectator) =>
      var base := map["roomCode" := JStr(code), "playerName" := JStr(name)];
      if spectator.Some? then base["asSpectator" := JBool(spectator.value)] else base
    case SetReady(ready) => map["ready" := JBool(ready)]
    case StartGame => map[]
    case LeaveRoom => map[]
    case Reconnect(code, token) => map["roomCode" := JStr(code), "sessionToken" := JStr(token)]
    case Ping(t) => map["clientTime" := JNum(t)]
    case SubmitDetail(answer) => map["answer" := JStr(answer)]
    case AskQuestion(target, question) => map["targetPlayerId" := JStr(target), "question" := JStr(question)]
    case AnswerQuestion(qid, answer) => map["questionId" := JStr(qid), "answer" := JStr(answer)]
    case CallVote => map[]
    case CastVote(target) => map["targetPlayerId" := JStr(target)]
    case ContinueGame => map[]
    case VoiceMute(muted) => map["muted" := JBool(muted)]
    case VoiceDeafen(deafened) => map["deafened" := JBool(deafened)]
  }

  function Encode(m: ClientMessage): Json {
    JObj(map["type" := JStr(KindOf(m)), "payload" := JObj(EncodePayload(m))])
  }

  // ---------------------------------------------------------------------------
  // Properties of the schemas

  /**
   * A `create_room` config is accepted exactly when rounds is 3, 5 or 7,
   * timeScale lies in [0.5, 1.5], maxPlayers in [3, 8] (whole or not) and
   * witnessCount is 'auto', 1 or 2; it then decodes to itself.
   */
  lemma {:induction false} ConfigRoundTrip(c: RoomConfig)
    ensures ParseConfig(Some(EncodeConfig(c))) == if ValidConfig(c) then Some(c) else None
  {
    var j := EncodeConfig(c);
    var rounds := ParseRounds(Get(j, "rounds"));
    assert rounds.Some? <==> (c.rounds == 3 || c.rounds == 5 || c.rounds == 7);
    assert rounds.Some? ==> rounds.value == c.rounds;
    var wc := ParseWitnessCount(Get(j, "witnessCount"));
    match c.witnessCount {
      case Auto =>
        assert wc == Some(Auto);
      case Count(n) =>
        assert Get(j, "witnessCount") == Some(JNum(n as real));
        assert wc.Some? <==> (n == 1 || n == 2);
        assert wc.Some? ==> wc.value == c.witnessCount;
    }
  }

  /**
   * Decoding an encoded message gives the message back exactly when it
   * satisfies its schema's field constraints, and rejects it otherwise:
   * in particular a name outside `playerNameSchema`, a code outside
   * `roomCodeSchema` and an over-long answer or question are rejected.
   */
  lemma {:induction false} RoundTrip(m: ClientMessage)
    ensures ParseClientMessage(Encode(m)) == if ValidMessage(m) then Some(m) else None
  {
    var p := JObj(EncodePayload(m));
    assert Get(Encode(m), "payload") == Some(p);
    assert Get(Encode(m), "type") == Some(JStr(KindOf(m)));
    PayloadRoundTrip(m);
  }

  /** The payload half of `RoundTrip`, one message kind at a time. */
  lemma {:induction false} PayloadRoundTrip(m: ClientMessage)
    ensures ParsePayload(KindOf(m), JObj(EncodePayload(m))) == if ValidMessage(m) then Some(m) else None
  {
    match m {
      case CreateRoom(name, config) => CreateRoomPayloadRoundTrip(name, config);
      case JoinRoom(code, name, spectator) => JoinRoomPayloadRoundTrip(code, name, spectator);
      case _ =>
    }
  }

  lemma CreateRoomPayloadRoundTrip(name: string, config: RoomConfig)
    ensures var m := CreateRoom(name, config);
      ParsePayload(KindOf(m), JObj(EncodePayload(m))) == if ValidMessage(m) then Some(m) else None
  {
    ConfigRoundTrip(config);
    assert Get(JObj(EncodePayload(CreateRoom(name, config))), "config") == Some(EncodeConfig(config));
  }

  lemma JoinRoomPayloadRoundTrip(code: string, name: string, spectator: Option<bool>)
    ensures var m := JoinRoom(code, name, spectator);
      ParsePayload(KindOf(m), JObj(EncodePayload(m))) == if ValidMessage(m) then Some(m) else None
  {
    var p := JObj(EncodePayload(JoinRoom(code, name, spectator)));
    if spectator.Some? {
      assert Get(p, "asSpectator") == Some(JBool(spectator.value));
    } else {
      assert Get(p, "asSpectator") == None;
    }
  }

  /** A value whose `type` is not one of the 15 literals is rejected. */
  lemma UnknownKindRejected(j: Json, kind: string)
    requires Get(j, "type") == Some(JStr(kind)) && kind !in KINDS
    ensures ParseClientMessage(j) == None
  {
  }

  /** Decoding is canonical: re-encoding an accepted message decodes to the same message. */
  lemma {:induction false} DecodeEncodeDecode(j: Json)
    requires ParseClientMessage(j).Some?
    ensures ParseClientMessage(Encode(ParseClientMessage(j).value)) == ParseClientMessage(j)
  {
    RoundTrip(ParseClientMessage(j).value);
  }

  /**
   * The bounds hard-coded in `playerNameSchema` are `PLAYER_NAME_MIN` and
   * `PLAYER_NAME_MAX`, and every accepted name also passes
   * `PLAYER_NAME_REGEX`.
   */
  lemma NameSchemaAgreesWithConstants(s: string)
    ensures PlayerNameOk(s) <==> PLAYER_NAME_MIN <= |s| <= PLAYER_NAME_MAX && NameRegex(s)
    ensures PlayerNameOk(s) ==> NameRegex(s)
  {
  }

  /** Any code drawn from `ROOM_CODE_CHARS` with `ROOM_CODE_LENGTH` characters passes `roomCodeSchema`. */
  lemma {:induction false} GeneratedCodesPassSchema(code: string)
    requires |code| == ROOM_CODE_LENGTH
    requires forall i :: 0 <= i < |code| ==> code[i] in ROOM_CODE_CHARS
    ensures RoomCodeOk(code)
  {
    RoomCodeCharsAreCodeChars();
    forall i | 0 <= i < |code| ensures IsCodeChar(code[i]) {
      var k :| 0 <= k < |ROOM_CODE_CHARS| && ROOM_CODE_CHARS[k] == code[i];
    }
  }

  /** The schema caps are the shared length constants. */
  lemma LengthCapsMatchConstants(answer: string, question: string)
    ensures ValidMessage(SubmitDetail(answer)) <==> |answer| <= DETAIL_MAX_LENGTH
    ensures ValidMessage(AskQuestion("", question)) <==> |question| <= QUESTION_MAX_LENGTH
    ensures ValidMessage(AnswerQuestion("", answer)) <==> |answer| <= ANSWER_MAX_LENGTH
  {
  }

  /** `DEFAULT_CONFIG` satisfies the `create_room` config schema. */
  lemma DefaultConfigValid()
    ensures ValidConfig(DEFAULT_CONFIG)
    ensures ParseConfig(Some(EncodeConfig(DEFAULT_CONFIG))) == Some(DEFAULT_CONFIG)
  {
    ConfigRoundTrip(DEFAULT_CONFIG);
  }
}
