// Shared vocabulary of the game: phases, roles, connection states, the
// player view sent over the wire and the room configuration.

module Types {

  datatype Option<+T> = None | Some(value: T)

  /** Stages of a room; `Lobby` is the pre-game and post-game stage. */
  datatype Phase = Lobby | Memory | Roles | Details | Questions | Voting | Results

  /** The members of the `Phase` union in the order they are declared. */
  const PHASES: seq<Phase> := [Lobby, Memory, Roles, Details, Questions, Voting, Results]

  /**
   * Position of a phase in the declared order of the `Phase` union: the
   * entry of `PHASES` at that position is the phase itself, so distinct
   * phases have distinct positions.
   */
  function PhaseOrdinal(p: Phase): (n: nat)
    ensures n < |PHASES| && PHASES[n] == p
    ensures n == 0 <==> p == Lobby
  {
    match p
    case Lobby => 0
    case Memory => 1
    case Roles => 2
    case Details => 3
    case Questions => 4
    case Voting => 5
    case Results => 6
  }

  datatype Role = Witness | Imposter

  datatype ConnectionStatus = Connected | Stale | Degraded | Dropped | Reconnecting

  datatype VoiceStatus = Muted | Speaking | Deafened | VoiceDisconnected

  datatype GameState = Idle | LobbyState | Playing | Finished

  /** `witnessCount` is either the literal 'auto' or a number. */
  datatype WitnessCount = Auto | Count(n: int)

  /**
   * A room configuration. `timeScale` and `maxPlayers` are JSON numbers that
   * the wire schema bounds but does not require to be whole, hence `real`.
   */
  datatype RoomConfig = RoomConfig(
    rounds: int,
    timeScale: real,
    maxPlayers: real,
    witnessCount: WitnessCount,
    allowSpectators: bool,
    voiceEnabled: bool)

  /** The public view of a participant, as carried in server messages. */
  datatype Player = Player(
    id: string,
    name: string,
    isHost: bool,
    isReady: bool,
    connectionStatus: ConnectionStatus,
    voiceStatus: VoiceStatus,
    score: int)

  datatype ErrorCode =
    | ROOM_NOT_FOUND | ROOM_FULL | INVALID_ACTION | NOT_HOST | GAME_IN_PROGRESS
    | INVALID_PHASE | RATE_LIMITED | INVALID_SESSION | INVALID_MESSAGE | NAME_TAKEN

  datatype LeaveReason = Left | Kicked | Disconnected

  datatype GameFinishedReason = Completed | InsufficientPlayers | HostEnded

  datatype RoundVoidReason = WitnessDisconnected

  /** `room_closed`'s reason: `'timeout' | 'host_ended'`. */
  datatype RoomClosedReason = ClosedByTimeout | ClosedByHost

  datatype Winner = Winner(id: string, name: string, score: int)

  /** The number a string of decimal digits spells, most significant digit first. */
  function DigitsValue(s: string): int {
    if s == [] then 0 else 10 * DigitsValue(s[..|s| - 1]) + (s[|s| - 1] as int - '0' as int)
  }

  lemma DigitChar(k: nat)
    requires k < 10
    ensures "0123456789"[k] as int - '0' as int == k
  {
  }

  /**
   * `Number.prototype.toString` on a non-negative integer: decimal digits
   * that spell `n`, a single one exactly below 10.
   */
  function NatToString(n: nat): (s: string)
    ensures |s| >= 1
    ensures forall c :: c in s ==> '0' <= c <= '9'
    ensures n < 10 <==> |s| == 1
    ensures DigitsValue(s) == n
  {
    if n < 10 then
      DigitChar(n);
      assert ["0123456789"[n]][..0] == [];
      ["0123456789"[n]]
    else
      var s := NatToString(n / 10) + ["0123456789"[n % 10]];
      DigitChar(n % 10);
      assert s[..|s| - 1] == NatToString(n / 10);
      s
  }
}
