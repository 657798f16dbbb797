# Déjà Vu room and client — a verified model

Déjà Vu is a social-deduction party game. One player (the witness) is shown
a memory and the others bluff that they saw it too. Each game room is a
Cloudflare Durable Object, `GameRoom`. It admits players and spectators over
WebSockets, keeps a single host, starts games and moves each round through
the phases on an alarm. The browser client has three parts. A reconnecting
WebSocket wrapper carries the traffic. A reducer folds server messages into
the game store. Two entry forms validate names and room codes, and a timer
shows the time left in the phase.

This project models those parts in Dafny and proves the rules they keep.

- **Server actor**
  - `RoomSpec` is a transition system over a `World`. The `World` holds:
    - the room snapshot;
    - the sessions;
    - the durable copy written by `persistState`;
    - the pending alarm;
    - the frames sent to sockets.
  - `Room.GameRoom` is a class with the same fields. Each handler updates
    those fields in place. Each method is proved to reach the state the
    matching `RoomSpec` function prescribes.
  - `RoomInvariant` proves that every frame, close and alarm keeps these
    facts:
    - ids are unique and never shared between the two maps;
    - names are valid and distinct ignoring case;
    - exactly the earliest-inserted player is host;
    - the configuration passes the schema;
    - the game is playing exactly when the phase is not the lobby.
  - `RoomProps` states the outcome of each handler.
  - `HostFailover` covers a mid-game host drop. It shows the behaviour as
    written and the corrected hand-off (see Findings).
- **Shared package**
  - `Messages` holds the client schemas as a decoder over parsed JSON, with
    its encoder and round-trip.
  - `Constants` holds the shared constants.
  - `Types` holds the shared types.
- **AI fallback**: `Ai` holds the fallback scenario table, the question
  picker and the validity check for a generated scenario.
- **Client**
  - `GameClient` holds the store reducer.
  - `WsSpec` and the class `Ws.WebSocketClient` hold the reconnect and
    heartbeat state machine.
  - `Forms` holds the join and create forms.
  - `Timer` holds the countdown display.

A JavaScript `Map` is a sequence in insertion order (`Keyed`). `Map.set`
overwrites an existing key in place and otherwise appends. This order is
what `transferHost` and the winner's tie-break depend on.

Points where the code's behaviour is easy to misread, and which the model
reproduces as written:

- **Explicit leave during a game.** `handleLeaveRoom` (room.ts:340-346)
  removes the player in every game state; only a closed socket during a game
  keeps the slot and marks it dropped (`RoomProps.LeaveRemovesInAnyState`).
- **Mid-game host disconnect.** `handlePlayerDisconnect` (room.ts:474-476)
  calls `transferHost`, whose name and `host_transferred` broadcast announce
  a hand-off. `transferHost` promotes the first player, and that is the
  dropped host itself (`HostFailover.DroppedHostKeepsHost`; see Findings).
- **Capacity.** `maxPlayers` is not required to be whole. A cap of 3.5 lets a
  fourth player in (`RoomProps.FractionalCapacityAdmitsExtraPlayer`).
- **Spectator host.** A spectator who joins a room with no players is
  flagged host.
- **Unchecked create and start.** `create_room` replaces the configuration
  before the join checks run. `start_game` does not look at the game state.
- **Winner ties.** Among equal top scores the winner is the earliest
  inserted, because the sort is stable.

## Model

| member | source | states |
|---|---|---|
| Types.NatToString | packages/server/src/room.ts:720-725 | the decimal text of a number is non-empty, all digits, one character exactly below 10, and spells the number |
| Types.PhaseOrdinal | packages/shared/src/types.ts:1-8 | each phase's number is its position in the declared order of the union, so distinct phases get distinct numbers; only the lobby is 0 |
| Constants.PhaseDuration | packages/shared/src/constants.ts:15-22 | every timed phase lasts between 5 and 90 seconds, so none is zero |
| Constants.RoomCodeCharsAreCodeChars | packages/shared/src/constants.ts:1-2 | every character a room code may be drawn from is an upper-case letter or digit; there are 32 of them |
| Constants.ThresholdsOrdered | packages/shared/src/constants.ts:24-27 | heartbeat interval < stale < degraded < dropped thresholds |
| Constants.DefaultCapacityAllowsStart | packages/shared/src/constants.ts:8-9 | the default seat count lies between the start minimum and the maximum; default rounds 5, scale 1.0, witnesses auto |
| Messages.ParsePlayerName | packages/shared/src/messages.ts:17 | an accepted name is 1 to 20 characters over `[a-zA-Z0-9_-]` |
| Messages.ParseRoomCode | packages/shared/src/messages.ts:18 | an accepted code is 6 characters over `[A-Z0-9]` |
| Messages.ParseBoundedString | packages/shared/src/messages.ts:76-97 | an accepted text field is no longer than its cap |
| Messages.ParsePayload | packages/shared/src/messages.ts:35-128 | an accepted payload gives a message of the kind its type tag names, and that message meets the kind's field constraints |
| Messages.ParseClientMessage | packages/shared/src/messages.ts:130-146 | an accepted value is an object whose type is one of the 15 literals; the message keeps that kind and meets its schema |
| Messages.KindOf | packages/shared/src/messages.ts:130-146 | every message kind maps to one of the 15 type literals |
| Messages.ConfigRoundTrip | packages/shared/src/messages.ts:20-33 | a config is accepted exactly when rounds is 3/5/7, timeScale is in [0.5,1.5], maxPlayers is in [3,8] (whole or not) and witnessCount is auto/1/2; an accepted config decodes to itself |
| Messages.RoundTrip | packages/shared/src/messages.ts:130-146 | decoding an encoded message returns it when it meets its schema and rejects it otherwise |
| Messages.PayloadRoundTrip | packages/shared/src/messages.ts:35-128 | the same round trip for each payload schema, one kind at a time |
| Messages.UnknownKindRejected | packages/shared/src/messages.ts:130-146 | a value whose type is not one of the 15 literals is rejected |
| Messages.DecodeEncodeDecode | packages/shared/src/messages.ts:130-146 | re-encoding an accepted message and decoding again gives the same message |
| Messages.NameSchemaAgreesWithConstants | packages/shared/src/constants.ts:4-6 | the name schema's bounds are the shared min and max, and every accepted name passes the shared name regex |
| Messages.GeneratedCodesPassSchema | packages/shared/src/constants.ts:1-2 | any code of the code length drawn from the code alphabet passes the room-code schema |
| Messages.LengthCapsMatchConstants | packages/shared/src/constants.ts:11-13 | the schema caps on answers and questions are the shared length constants (280/200/200) |
| Messages.DefaultConfigValid | packages/shared/src/constants.ts:38-45 | the default configuration passes the create_room config schema |
| Keyed.IndexOf | packages/server/src/room.ts:130-135 | the position found is the first entry with the key; none exactly when no entry has it |
| Keyed.Lookup | packages/server/src/room.ts:291 | `Map.get` returns an entry with the key exactly when one exists |
| Keyed.Set | packages/server/src/room.ts:229-240 | `Map.set` appends a new key, overwrites an existing key in place, leaves other entries alone and keeps keys unique |
| Keyed.Remove | packages/server/src/room.ts:488-490 | `Map.delete` drops exactly the entries with the key, keeps unique keys unique, and leaves a map without the key unchanged |
| Keyed.RemoveAppend | packages/server/src/room.ts:488-490 | `Map.delete` works entry by entry: deleting a key from two maps laid end to end deletes it from each part |
| Keyed.RemoveKeepsOrder | packages/server/src/room.ts:488-490 | with unique keys, deleting an entry's key cuts out exactly that entry and the others keep their insertion order |
| Keyed.RemovePresent | packages/server/src/room.ts:488-490 | deleting a present key from a unique-keyed map shrinks it by exactly one |
| Ai.JsRem | packages/server/src/ai.ts:62 | JavaScript's `%`: the dividend is the divisor times the quotient rounded toward zero plus the remainder, which takes the dividend's sign and is smaller than the divisor in size |
| Ai.SelectDetailQuestion | packages/server/src/ai.ts:60-63 | for a non-empty list and non-negative index the question at index mod length; nothing for an empty list; any result is one of the questions |
| Ai.GetFallbackScenario | packages/server/src/ai.ts:65-180 | the fallback is always one of the five built-in scenarios |
| Ai.ChooseScenario | packages/server/src/ai.ts:48-57 | a generated scenario is used exactly when its prompt is non-empty and its fragments, hints and questions are non-empty; otherwise a built-in one is used |
| Ai.FallbacksWellFormed | packages/server/src/__tests__/room.test.ts:654-672 | every built-in scenario of the table at ai.ts:66-177 has 4 fragments, 4 hints and 5 questions, a prompt over 20 characters, and joined fragments longer than joined hints, as the AI tests expect |
| Ai.ChosenScenarioHasQuestions | packages/server/src/ai.ts:48-63 | whichever scenario is chosen, every non-negative round index picks a question |
| Ai.JoinSpaceLength | packages/server/src/__tests__/room.test.ts:667-670 | joining with spaces, as the test does before comparing lengths, adds one character per gap to the total length |
| RoomSpec.TopScorer | packages/server/src/room.ts:669-672 | the index of a highest score, with every earlier entry strictly lower |
| RoomSpec.WinnerOf | packages/server/src/room.ts:669-679 | the winner is the first entry holding the highest score, or the empty placeholder with no players |
| RoomSpec.ScaledDuration | packages/server/src/room.ts:689-692 | a scaled duration is at least 2.5 s for any allowed scale, and equals the base duration at scale 1 |
| RoomSpec.GenerateId | packages/server/src/room.ts:716-718 | an id is "p" followed by at most 8 characters, and has no dot when the UUID has none |
| RoomSpec.NewRoom | packages/server/src/room.ts:60-69 | a fresh room is an empty lobby in round 0 with phaseEndTime 0 and the default configuration |
| RoomSpec.SessionIndex | packages/server/src/room.ts:130-135 | the first session bound to the socket, or none when no session is |
| RoomInvariant.HostUnique | packages/server/src/room.ts:222 | under the invariant at most one player is flagged host |
| RoomInvariant.NamesPairwiseDistinct | packages/server/src/room.ts:197-204 | under the invariant no two participants share a name ignoring case |
| RoomInvariant.InitializeKeepsInv | packages/server/src/room.ts:49-72 | a restored or freshly created room satisfies the invariant |
| RoomInvariant.JoinKeepsInv | packages/server/src/room.ts:183-269 | a join with a fresh id keeps the invariant: unique ids, distinct names, first player host |
| RoomInvariant.CreateKeepsInv | packages/server/src/room.ts:271-285 | create_room with a schema-valid config keeps the invariant |
| RoomInvariant.SetReadyKeepsInv | packages/server/src/room.ts:287-306 | set_ready keeps the invariant |
| RoomInvariant.StartGameKeepsInv | packages/server/src/room.ts:308-338 | start_game keeps the invariant |
| RoomInvariant.StartRoundKeepsInv | packages/server/src/room.ts:531-559 | starting a round keeps the invariant of the room and of its snapshot |
| RoomInvariant.RemovePlayerKeepsInv | packages/server/src/room.ts:479-529 | removing a participant, followed by promoting the first player when the host left, keeps exactly one host first |
| RoomInvariant.RemovePromoteInv | packages/server/src/room.ts:510-529 | removing the host and promoting the next player keeps the invariant |
| RoomInvariant.LeaveKeepsInv | packages/server/src/room.ts:340-346 | leave_room keeps the invariant |
| RoomInvariant.PingKeepsInv | packages/server/src/room.ts:348-360 | ping keeps the invariant |
| RoomInvariant.ReconnectKeepsInv | packages/server/src/room.ts:406-448 | reconnect keeps the invariant |
| RoomInvariant.TransferToHostIsNoop | packages/server/src/room.ts:510-529 | promoting a first player who already holds the flag changes no state |
| RoomInvariant.MarkDroppedKeepsInv | packages/server/src/room.ts:461-476 | marking a participant dropped during a game keeps the invariant |
| RoomInvariant.DisconnectKeepsInv | packages/server/src/room.ts:450-477 | a disconnect keeps the invariant in the lobby and in a game |
| RoomInvariant.CloseKeepsInv | packages/server/src/room.ts:118-128 | a socket close or error keeps the invariant |
| RoomInvariant.TransitionKeepsInv | packages/server/src/room.ts:586-651 | every phase transition keeps the invariant |
| RoomInvariant.RoundEndKeepsInv | packages/server/src/room.ts:653-687 | the end of a round, whether it starts the next one or ends the game, keeps the invariant |
| RoomInvariant.AlarmKeepsInv | packages/server/src/room.ts:561-584 | the alarm keeps the invariant |
| RoomInvariant.MessageKeepsInv | packages/server/src/room.ts:137-181 | every validated client message keeps the invariant |
| RoomInvariant.FrameKeepsInv | packages/server/src/room.ts:100-116 | every incoming frame keeps the invariant of the room and of its snapshot |
| RoomProps.BroadcastLogSpec | packages/server/src/room.ts:740-744 | a broadcast writes one frame per session, in session order |
| RoomProps.ExceptLogSpec | packages/server/src/room.ts:746-752 | broadcastExcept reaches exactly the sessions not bound to the excluded player |
| RoomProps.ScoresKeys | packages/server/src/room.ts:669 | the score map's keys are exactly the players' ids |
| RoomProps.ScoresSpec | packages/server/src/room.ts:669 | with unique ids the score map's keys are exactly the players' ids, each mapped to its score |
| RoomProps.CountReadyAtMostSize | packages/server/src/room.ts:318-322 | the ready count never exceeds the number of players |
| RoomProps.WinnerIsFirstMaximum | packages/server/src/room.ts:671-679 | the winner is the player at the first position of a highest score |
| RoomProps.WinnerTieGoesToEarlier | packages/server/src/room.ts:671-672 | a later player with the same top score does not win |
| RoomProps.TokenDeterminesPlayer | packages/server/src/room.ts:720-725 | two session tokens that are equal were issued for the same room code and player id |
| RoomProps.GeneratedIdsHaveNoDot | packages/server/src/room.ts:716-718 | a generated id is non-empty and carries no dot when the UUID carries none |
| RoomProps.InitializeOutcome | packages/server/src/room.ts:49-84 | initialize restores a stored snapshot unchanged whatever the code, or creates and persists a fresh lobby; a second call changes nothing |
| RoomProps.JoinRejectionOrder | packages/server/src/room.ts:192-214 | the join checks fire in order: bad name, name taken ignoring case, room full for players, game in progress for players |
| RoomProps.JoinRejectedChangesNothing | packages/server/src/room.ts:192-214 | a rejected join only sends the caller the error and changes nothing else |
| RoomProps.JoinAdmits | packages/server/src/room.ts:216-268 | an accepted join appends to the chosen map only, sets host exactly when there were no players, binds the session and persists |
| RoomProps.FractionalCapacityAdmitsExtraPlayer | packages/server/src/room.ts:206 | with a cap of 3.5 a fourth player passes the capacity check |
| RoomProps.JoinRespectsWholeCapacity | packages/server/src/room.ts:206-209 | with a whole-number cap a player join never takes the count past maxPlayers |
| RoomProps.CreateInstallsConfig | packages/server/src/room.ts:280 | create_room installs the new configuration even when the join that follows is rejected |
| RoomProps.StartGameOutcomes | packages/server/src/room.ts:308-338 | non-host gets NOT_HOST; fewer than 3 ready gets INVALID_ACTION, neither changing state; otherwise playing, round 1, memory phase, alarm at the memory deadline after now |
| RoomProps.StartGameNeedsSession | packages/server/src/room.ts:309-310 | start_game from a socket with no session does nothing |
| RoomProps.AlarmAdvancesPhase | packages/server/src/room.ts:561-651 | the alarm moves a playing room one phase along memory→roles→details→questions→voting→results and re-arms after now |
| RoomProps.AlarmEndsRound | packages/server/src/room.ts:653-687 | from results: next round in memory while rounds remain, otherwise finished in the lobby phase with no alarm |
| RoomProps.AlarmInLobbyIsNoop | packages/server/src/room.ts:561-584 | in the lobby phase, or before initialize, the alarm only clears itself |
| RoomProps.EndGameAnnouncesWinner | packages/server/src/room.ts:664-687 | endGame announces the score map and the first highest-scoring player, or the empty placeholder |
| RoomProps.ReconnectUnknownToken | packages/server/src/room.ts:415-422 | an unknown token only earns INVALID_SESSION |
| RoomProps.ReconnectKnownToken | packages/server/src/room.ts:415-448 | a known token marks that entry connected, changes no other entry, and binds its session to the new socket |
| RoomProps.SetStatusAtSpec | packages/server/src/room.ts:461 | setting a status changes the one entry at the given position and nothing else |
| RoomProps.RemovePlayerSpec | packages/server/src/room.ts:479-508 | removePlayer drops the entry from both maps and its session, keeps every other participant and the game state |
| RoomProps.LeaveRemovesInAnyState | packages/server/src/room.ts:340-346 | leave_room removes the sender in every game state and closes its socket with 1000 |
| RoomProps.CloseInLobbyRemoves | packages/server/src/room.ts:450-461 | a close in the lobby removes the player from both maps and the sessions |
| RoomProps.MarkDroppedSpec | packages/server/src/room.ts:461-476 | marking dropped changes only that entry's status, keeping sessions, phase and game state |
| RoomProps.DisconnectInGameDrops | packages/server/src/room.ts:450-477 | outside the lobby a disconnect keeps the slot and marks it dropped; nothing else changes |
| RoomProps.CloseInGameDrops | packages/server/src/room.ts:118-124 | a close during or after a game keeps the slot, marks it dropped and forgets its session |
| RoomProps.IgnoredFramesChangeNothing | packages/server/src/room.ts:100-116 | binary frames and stub messages change nothing; bad JSON and schema failures only answer INVALID_MESSAGE |
| RoomProps.PingOnlyRefreshesHeartbeat | packages/server/src/room.ts:348-360 | ping refreshes only the sender's heartbeat and always answers pong with the server time |
| HostFailover.Successor | packages/server/src/room.ts:474-476 | the first player other than the old host whose slot is not dropped, or none when there is no such player |
| HostFailover.HandOffHost | packages/server/src/room.ts:510-529 | corrected hand-off: exactly the successor holds the flag, nothing else about the room or any player changes, the state is persisted and the successor announced; no successor leaves the room as it is |
| HostFailover.DisconnectWithHandOff | packages/server/src/room.ts:450-477 | corrected disconnect: identical to the room's own disconnect except when a host drops mid-game with others seated, where sessions, roster order and ids are kept |
| HostFailover.DroppedHostKeepsHost | packages/server/src/room.ts:474-476 | as written: a mid-game host drop leaves the flag on the dropped host only and announces a transfer from the host to the host |
| HostFailover.HandOffMovesHost | packages/server/src/room.ts:474-476 | corrected: the flag moves to the first other connected player and off everyone else, and the announcement names that player |
| Room.GameRoom.constructor | packages/server/src/room.ts:45-47 | a fresh actor has no state and no sessions over whatever storage and alarm hold |
| Room.GameRoom.Initialize | packages/server/src/room.ts:49-72 | reaches the state RoomSpec.Initialize prescribes |
| Room.GameRoom.PersistState | packages/server/src/room.ts:74-84 | the durable copy becomes the current state |
| Room.GameRoom.Send | packages/server/src/room.ts:727-731 | exactly one frame is appended to the outbox |
| Room.GameRoom.SendError | packages/server/src/room.ts:733-738 | exactly one error frame is appended |
| Room.GameRoom.Broadcast | packages/server/src/room.ts:740-744 | the loop appends one frame per session, in order |
| Room.GameRoom.BroadcastExcept | packages/server/src/room.ts:746-752 | the loop appends one frame per session not bound to the excluded player |
| Room.GameRoom.FindSessionBySocket | packages/server/src/room.ts:130-135 | the loop returns the first session bound to the socket, or none |
| Room.GameRoom.WebSocketMessage | packages/server/src/room.ts:100-116 | reaches the state RoomSpec.WebSocketMessage prescribes |
| Room.GameRoom.WebSocketClose | packages/server/src/room.ts:118-128 | reaches the state RoomSpec.HandleClose prescribes |
| Room.GameRoom.Alarm | packages/server/src/room.ts:561-584 | reaches the state RoomSpec.Alarm prescribes |
| Room.GameRoom.HandleMessage | packages/server/src/room.ts:137-181 | reaches the state RoomSpec.HandleMessage prescribes |
| Room.GameRoom.HandleJoinRoom | packages/server/src/room.ts:183-269 | reaches the state RoomSpec.HandleJoinRoom prescribes |
| Room.GameRoom.HandleCreateRoom | packages/server/src/room.ts:271-285 | reaches the state RoomSpec.HandleCreateRoom prescribes |
| Room.GameRoom.HandleSetReady | packages/server/src/room.ts:287-306 | reaches the state RoomSpec.HandleSetReady prescribes |
| Room.GameRoom.HandleStartGame | packages/server/src/room.ts:308-338 | reaches the state RoomSpec.HandleStartGame prescribes |
| Room.GameRoom.HandleLeaveRoom | packages/server/src/room.ts:340-346 | reaches the state RoomSpec.HandleLeaveRoom prescribes |
| Room.GameRoom.HandlePing | packages/server/src/room.ts:348-360 | reaches the state RoomSpec.HandlePing prescribes |
| Room.GameRoom.HandleReconnect | packages/server/src/room.ts:406-448 | reaches the state RoomSpec.HandleReconnect prescribes |
| Room.GameRoom.HandlePlayerDisconnect | packages/server/src/room.ts:450-477 | reaches the state RoomSpec.HandlePlayerDisconnect prescribes |
| Room.GameRoom.RemovePlayer | packages/server/src/room.ts:479-508 | reaches the state RoomSpec.RemovePlayer prescribes |
| Room.GameRoom.DeleteParticipant | packages/server/src/room.ts:488-492 | both maps and the sessions lose the id, then the state is persisted |
| Room.GameRoom.TransferHost | packages/server/src/room.ts:510-529 | reaches the state RoomSpec.TransferHost prescribes |
| Room.GameRoom.StartRound | packages/server/src/room.ts:531-559 | reaches the state RoomSpec.StartRound prescribes |
| Room.GameRoom.TransitionTo | packages/server/src/room.ts:586-651 | reaches the state RoomSpec.TransitionTo prescribes |
| Room.GameRoom.HandleRoundEnd | packages/server/src/room.ts:653-662 | reaches the state RoomSpec.HandleRoundEnd prescribes |
| Room.GameRoom.EndGame | packages/server/src/room.ts:664-687 | reaches the state RoomSpec.EndGame prescribes |
| GameClient.Reduce | apps/web/src/lib/game-client.ts:11-296 | room_created and room_joined install the room code, own id and configuration and return to the lobby; pong and error leave the store unchanged |
| GameClient.ReduceIgnoresUnhandled | apps/web/src/lib/game-client.ts:12-295 | the six kinds the switch has no case for (player_voice_changed, question_asked, question_answered, vote_call_update, round_voided, room_closed) leave the store unchanged |
| GameClient.ReduceKeepsIdentity | apps/web/src/lib/game-client.ts:11-296 | no other message changes the room code, own id, spectator flag or configuration, and no message touches the sync flag |
| GameClient.ReduceCountdown | apps/web/src/lib/game-client.ts:11-296 | the countdown takes the value of exactly the seven messages that carry `timeRemaining` and is kept by all others |
| GameClient.WithoutMembers | apps/web/src/lib/game-client.ts:83-89 | filtering by id keeps exactly the entries with another id |
| GameClient.WithoutIsRemove | apps/web/src/lib/game-client.ts:83-89 | the client's filter by id is the same removal as the server's `Map.delete` |
| GameClient.WithoutKeepsOrder | apps/web/src/lib/game-client.ts:83-89 | with distinct ids, filtering out a player's id removes that entry and keeps the rest in order |
| GameClient.PlayerJoinedAppendsOnce | apps/web/src/lib/game-client.ts:58-81 | player_joined leaves the store alone when the target list holds the id, else appends to that list only |
| GameClient.PlayerJoinedIdempotent | apps/web/src/lib/game-client.ts:58-81 | delivering player_joined twice is the same as delivering it once |
| GameClient.PlayerLeftRemoves | apps/web/src/lib/game-client.ts:83-93 | player_left removes every entry with the id from both lists and changes nothing else |
| GameClient.JoinThenLeave | apps/web/src/lib/game-client.ts:58-93 | a new player who joins and then leaves leaves the store as it was |
| GameClient.ReadyChangedTouchesOnlyTarget | apps/web/src/lib/game-client.ts:95-104 | player_ready_changed sets only the matching players' ready flag; length and order stay |
| GameClient.HostTransferredFlags | apps/web/src/lib/game-client.ts:120-132 | after host_transferred exactly the new host's entries are flagged, and the local flag says whether this client is host |
| GameClient.HostTransferredSingleHost | apps/web/src/lib/game-client.ts:120-132 | with distinct ids and the new host present, exactly one player is flagged afterwards |
| GameClient.RoundResultsScores | apps/web/src/lib/game-client.ts:231-243 | round_results enters results; each listed player takes its total and others keep their score |
| GameClient.GameFinishedUnreadies | apps/web/src/lib/game-client.ts:245-260 | game_finished returns to the lobby phase with every player not ready |
| GameClient.ProgressListsResetAndAppend | apps/web/src/lib/game-client.ts:179-229 | detail_question and voting_started clear their lists; the per-player notices append without de-duplication |
| WsSpec.TransitionsKeepValid | apps/web/src/lib/ws.ts:25-96 | every transition keeps the heartbeat handle registered and all handles previously issued |
| WsSpec.OpenResetsCounter | apps/web/src/lib/ws.ts:31-35 | a successful open resets the attempt counter and starts exactly one new heartbeat |
| WsSpec.AttemptReconnectSpec | apps/web/src/lib/ws.ts:87-96 | at the maximum nothing happens; otherwise one more attempt is counted and scheduled after 1000·2^(attempts−1) ms |
| WsSpec.CloseStopsHeartbeat | apps/web/src/lib/ws.ts:44-48 | onclose always leaves the heartbeat stopped and unregistered and reports disconnected |
| WsSpec.SendOnlyWhenOpen | apps/web/src/lib/ws.ts:58-62 | a frame goes out exactly when the socket is open, and nothing else changes |
| WsSpec.ClosesSchedule | apps/web/src/lib/ws.ts:87-96 | a run of closes counts up to the maximum and schedules exactly the remaining backoff delays |
| WsSpec.BackoffFromFreshCounter | apps/web/src/lib/ws.ts:15-18 | from a fresh counter, closes with no open between schedule at most five reconnects, after 1, 2, 4, 8 and 16 s |
| WsSpec.NoReconnectAfterDisconnect | apps/web/src/lib/ws.ts:64-69 | after disconnect the socket is gone, the heartbeat stopped, and no later close schedules a reconnect |
| Ws.WebSocketClient.constructor | apps/web/src/lib/ws.ts:14-23 | a new client has no socket, no heartbeat, no attempts and a maximum of five |
| Ws.WebSocketClient.Connect | apps/web/src/lib/ws.ts:25-56 | reaches the state WsSpec.Connect prescribes |
| Ws.WebSocketClient.OnOpen | apps/web/src/lib/ws.ts:31-35 | reaches the state WsSpec.OnOpen prescribes |
| Ws.WebSocketClient.OnClose | apps/web/src/lib/ws.ts:44-48 | reaches the state WsSpec.OnClose prescribes |
| Ws.WebSocketClient.OnError | apps/web/src/lib/ws.ts:50-52 | reaches the state WsSpec.OnError prescribes |
| Ws.WebSocketClient.Send | apps/web/src/lib/ws.ts:58-62 | reaches the state WsSpec.Send prescribes |
| Ws.WebSocketClient.Disconnect | apps/web/src/lib/ws.ts:64-69 | reaches the state WsSpec.Disconnect prescribes |
| Ws.WebSocketClient.StartHeartbeat | apps/web/src/lib/ws.ts:71-78 | reaches the state WsSpec.StartHeartbeat prescribes |
| Ws.WebSocketClient.StopHeartbeat | apps/web/src/lib/ws.ts:80-85 | reaches the state WsSpec.StopHeartbeat prescribes |
| Ws.WebSocketClient.AttemptReconnect | apps/web/src/lib/ws.ts:87-96 | reaches the state WsSpec.AttemptReconnect prescribes |
| Ws.WebSocketClient.HeartbeatTick | apps/web/src/lib/ws.ts:72-77 | reaches the state WsSpec.HeartbeatTick prescribes |
| Forms.ValidatePlayerName | apps/web/src/components/JoinForm.tsx:21-26 | no message exactly when the name schema accepts; the required message exactly for an empty name; the length message exactly above 20; the character-set message exactly for a name of 1 to 20 characters outside `[a-zA-Z0-9_-]` |
| Forms.ValidateRoomCode | apps/web/src/components/JoinForm.tsx:28-32 | no message exactly when the code schema accepts; the length message exactly when the length is not 6; the format message exactly for a six-character code with a character outside `[A-Z0-9]` |
| Forms.SanitizeRoomCode | apps/web/src/components/JoinForm.tsx:34-37 | the sanitised code has at most six characters, all in `[A-Z0-9]` |
| Forms.SanitizeTakesFirstAlnums | apps/web/src/components/JoinForm.tsx:35 | the sanitised code is the first six ASCII alphanumerics of the input, upper-cased, in order |
| Forms.SanitizeIdempotent | apps/web/src/components/JoinForm.tsx:35 | sanitising a sanitised code changes nothing |
| Forms.FullSanitizedCodeValidates | apps/web/src/components/JoinForm.tsx:28-37 | a sanitised code of full length always validates |
| Forms.JoinSubmit | apps/web/src/components/JoinForm.tsx:39-78 | submission stops exactly on a bad name (with the name message first) or, without a route code, a bad code; a stored session opens the room exactly when both validate and no route code is given; a typed code that is sent forms a valid join_room with the typed name |
| Forms.ConfigOf | apps/web/src/components/CreateForm.tsx:43-50 | every choice of buttons gives a configuration the create_room schema accepts: rounds 3/5/7, scale 0.7/1.0/1.3, 8 seats, automatic witnesses, toggles as chosen |
| Forms.CreateSubmit | apps/web/src/components/CreateForm.tsx:27-57 | submission stops exactly on a bad name, with the validator's message; what is sent is a valid create_room with that name |
| Forms.InitialChoicesAreDefaults | apps/web/src/components/CreateForm.tsx:12-15 | the form opens on the server's default configuration except for eight seats |
| Timer.Minutes | apps/web/src/components/Timer.tsx:10 | the whole minutes rounded down: 60·m ≤ t < 60·m + 60 |
| Timer.Seconds | apps/web/src/components/Timer.tsx:11 | JavaScript's remainder: differs from t by a multiple of 60, lies strictly between -60 and 60, and has t's sign |
| Timer.ClockSplit | apps/web/src/components/Timer.tsx:10-11 | for t ≥ 0, 60·minutes + seconds = t with seconds in 0..59 |
| Timer.CriticalImpliesLow | apps/web/src/components/Timer.tsx:12-13 | the critical warning implies the low warning |
| Timer.FormattedTime | apps/web/src/components/Timer.tsx:15-19 | below 6000 the display is five characters `mm:ss` and reads back as t |
| Timer.FormattedRemaining | apps/web/src/components/Timer.tsx:15-19 | a millisecond count below 100 minutes displays as `mm:ss` reading back as its whole seconds |
| Timer.MemoryPhaseReadsAsMinutes | apps/web/src/components/Timer.tsx:10-13 | as written: the 5000 ms memory phase shows 83:20 and does not warn |
| Timer.FormattedRemainingShowsSeconds | apps/web/src/components/Timer.tsx:10-19 | corrected: a millisecond count below 100 minutes shows as `mm:ss` of its whole seconds, and warns exactly below 11 s |
| Timer.MemoryPhaseReadsAsSeconds | apps/web/src/components/Timer.tsx:10-19 | corrected: the memory phase shows 00:05 and warns |

## Left out

- Durable Object runtime: `fetch` and the WebSocket upgrade (room.ts:86-98), `acceptWebSocket`, and real storage and alarm APIs. They are replaced by the `storage`, `alarmAt` and `outbox` fields. The runtime clearing a fired alarm is the first step of `Alarm`.
- A socket `send` that throws: `send` (room.ts:727-731) swallows the error, and the model assumes every frame is written.
- A socket `close` that throws: `ws.close` in `handleLeaveRoom` (room.ts:345) is outside any `try`. A throw there would reach the handler at room.ts:113-115, which sends an `INVALID_MESSAGE` "Failed to parse message" error after the player has been removed. The model assumes `close` does not throw, so that extra error frame is not modelled.
- `Date.now()` and `crypto.randomUUID()` are parameters. A UUID collision between two joins is excluded by a `FreshDraw` precondition rather than modelled. Each handler gets one clock reading. The source reads the clock twice in two handlers and may get a later millisecond the second time: the join token (room.ts:722) and the heartbeat (room.ts:238), and ping's heartbeat (room.ts:351) and `serverTime` (room.ts:356). So `RoomProps.JoinAdmits` and `RoomProps.PingOnlyRefreshesHeartbeat` state these readings equal, which the source does not guarantee.
- Ai.SelectDetailQuestion: the index is an integer. ai.ts accepts any JS number, and a fractional, infinite or NaN index yields `undefined`; the model does not cover those indices.
- `JSON.parse` and zod are not modelled as code. Parsed JSON is a datatype whose objects are maps, and each schema is a decoder over it. JSON numbers are `real`, and `Math.round` is floor of x + 0.5.
- Text handling:
  - `toLowerCase` and `toUpperCase` act on ASCII letters only; other case mappings, such as ß to SS, are not modelled.
  - String lengths count characters, not UTF-16 code units.
- The round-play handlers (room.ts:362-404) are empty in the source and are modelled as changing nothing. The round data that tests expect (witnesses, details, votes, scoring) does not exist in the server and is not invented.
- The AI call and the regex extraction of its JSON (ai.ts:17-46). Only the validity check and the fallback are modelled. The generator's reply is an optional parsed record.
- `webSocketError` is treated as `webSocketClose`, as the source forwards it.
- `GameClient`:
  - Toasts, console output, `setSession` and the `connectToRoom` polling (game-client.ts:348-377) are not part of this model.
  - `handlePong` and `onLatencyUpdate` are called but do not exist on `WebSocketClient`.
  - Reduce: `pong` and `error` leave the store unchanged, because their only effects are those calls and the toast.
- `Ws.WebSocketClient`:
  - The JSON parse in `onmessage` is not modelled; the reducer takes parsed messages.
  - Timers never fire on their own. The environment fires a reconnect by calling `Connect` and a heartbeat by calling `HeartbeatTick`.
  - Callbacks of a replaced socket act on the current client state, as the source does, without tracking which socket raised them.
- Forms: navigation, storage lookups and the submit button's busy state. `JoinSubmit` takes the stored-session lookup as a flag.
- Several files are not part of this model: UI rendering files, `voice.ts`, `storage.ts`, `api.ts`, `index.ts`, and the `connection`/`user`/`voice` stores.
- `GameClient.Reduce`: every message that carries `timeRemaining` copies the server's millisecond count into the store unchanged, and the timer displays that value (see Findings).
- The exported commands of game-client.ts (306-409) only wrap `send` and the connection setup, so they are not part of this model.

## Findings

| source | as written | input that shows it | evidently intended | confidence | as-written member | corrected member |
|---|---|---|---|---|---|---|
| apps/web/src/components/Timer.tsx:10-13 | the timer treats `timeRemaining` as seconds, but the server sends milliseconds (room.ts:552) | the 5000 ms memory phase shows 83:20 and never turns low or critical | divide by 1000 before splitting into minutes and seconds and before the warning thresholds | high, not executed | Timer.MemoryPhaseReadsAsMinutes | Timer.FormattedRemainingShowsSeconds |
| packages/server/src/room.ts:474-476 | a host who drops mid-game with others present is handed to `transferHost`. That function promotes the first player, who is the dropped host. | a game with players [A (host), B, C]; A's socket closes. A stays the only host while dropped, and `host_transferred` names A as both old and new host. | promote the first other player still connected, and clear the old host's flag | high, not executed | HostFailover.DroppedHostKeepsHost | HostFailover.HandOffMovesHost |
