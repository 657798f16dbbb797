// Game-wide constants shared by the server and the web client
// (packages/shared/src/constants.ts), with the facts about them that the
// rest of the model relies on.

module Constants {
  import opened Types

  const ROOM_CODE_LENGTH: nat := 6
  const ROOM_CODE_CHARS: string := "ABCDEFGHJKLMNPQRSTUVWXYZ23456789"

  const PLAYER_NAME_MIN: nat := 1
  const PLAYER_NAME_MAX: nat := 20

  const MIN_PLAYERS: nat := 3
  const MAX_PLAYERS: nat := 8

  const DETAIL_MAX_LENGTH: nat := 280
  const QUESTION_MAX_LENGTH: nat := 200
  const ANSWER_MAX_LENGTH: nat := 200

  const HEARTBEAT_INTERVAL: nat := 2000
  const STALE_THRESHOLD: nat := 3000
  const DEGRADED_THRESHOLD: nat := 10000
  const DROPPED_THRESHOLD: nat := 30000

  const DEFAULT_CONFIG: RoomConfig := RoomConfig(5, 1.0, 6.0, Auto, true, true)

  /** Character class `[a-zA-Z0-9_-]`. */
  predicate IsNameChar(c: char) {
    ('a' <= c <= 'z') || ('A' <= c <= 'Z') || ('0' <= c <= '9') || c == '_' || c == '-'
  }

  /** Character class `[A-Z0-9]`. */
  predicate IsCodeChar(c: char) {
    ('A' <= c <= 'Z') || ('0' <= c <= '9')
  }

  /** `PLAYER_NAME_REGEX.test(s)`: one or more characters, all in `[a-zA-Z0-9_-]`. */
  predicate NameRegex(s: string) {
    |s| >= 1 && forall i :: 0 <= i < |s| ==> IsNameChar(s[i])
  }

  /** `PHASE_DURATIONS`, in milliseconds; the lobby has no duration. */
  function PhaseDuration(p: Phase): (ms: nat)
    requires p != Lobby
    ensures 5000 <= ms <= 90000
  {
    match p
    case Memory => 5000
    case Roles => 5000
    case Details => 45000
    case Questions => 90000
    case Voting => 30000
    case Results => 10000
  }

  /** Every code character `generateRoomCode` may draw lies in `[A-Z0-9]`. */
  lemma RoomCodeCharsAreCodeChars()
    ensures forall i :: 0 <= i < |ROOM_CODE_CHARS| ==> IsCodeChar(ROOM_CODE_CHARS[i])
    ensures |ROOM_CODE_CHARS| == 32
  {
  }

  /** The connection-quality thresholds are strictly increasing. */
  lemma ThresholdsOrdered()
    ensures HEARTBEAT_INTERVAL < STALE_THRESHOLD < DEGRADED_THRESHOLD < DROPPED_THRESHOLD
  {
  }

  /** A room with the default configuration can hold enough players to start. */
  lemma DefaultCapacityAllowsStart()
    ensures MIN_PLAYERS as real <= DEFAULT_CONFIG.maxPlayers <= MAX_PLAYERS as real
    ensures DEFAULT_CONFIG.rounds == 5 && DEFAULT_CONFIG.timeScale == 1.0
    ensures DEFAULT_CONFIG.witnessCount == Auto
  {
  }
}
