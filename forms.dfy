// The pure logic of the two entry forms: the name and room-code validators
// and the room-code sanitiser of apps/web/src/components/JoinForm.tsx, the
// same name validator and the configuration literal of
// apps/web/src/components/CreateForm.tsx, and the validation gate each
// `handleSubmit` passes before it calls into the game client. Signals,
// navigation and storage are replaced by parameters and outcomes.

module Forms {
  import opened Types
  import opened Constants
  import opened Messages

  const NAME_REQUIRED: string := "Name is required"
  const NAME_TOO_LONG: string := "Name must be 20 characters or less"
  const NAME_CHARSET: string := "Only letters, numbers, underscores, and hyphens allowed"
  const CODE_LENGTH: string := "Enter the 6-character code"
  const CODE_FORMAT: string := "Invalid code format"

  /**
   * `validatePlayerName`, identical in both forms: the first failed check's
   * message, or None when the name is acceptable, which is exactly when the
   * wire schema accepts it. Each of the three messages answers exactly one
   * kind of bad name.
   */
  function ValidatePlayerName(name: string): (r: Option<string>)
    ensures r.None? <==> PlayerNameOk(name)
    ensures r == Some(NAME_REQUIRED) <==> |name| < PLAYER_NAME_MIN
    ensures r == Some(NAME_TOO_LONG) <==> |name| > PLAYER_NAME_MAX
    ensures r == Some(NAME_CHARSET) <==> PLAYER_NAME_MIN <= |name| <= PLAYER_NAME_MAX && !NameRegex(name)
  {
    if |name| < PLAYER_NAME_MIN then Some(NAME_REQUIRED)
    else if |name| > PLAYER_NAME_MAX then Some(NAME_TOO_LONG)
    else if !NameRegex(name) then Some(NAME_CHARSET)
    else None
  }

  /**
   * `validateRoomCode`: None exactly when the wire schema accepts the code;
   * a code of the wrong length and a six-character code holding anything
   * outside `[A-Z0-9]` get their own messages.
   */
  function ValidateRoomCode(code: string): (r: Option<string>)
    ensures r.None? <==> RoomCodeOk(code)
    ensures r == Some(CODE_LENGTH) <==> |code| != ROOM_CODE_LENGTH
    ensures r == Some(CODE_FORMAT) <==> |code| == ROOM_CODE_LENGTH && exists i :: 0 <= i < |code| && !IsCodeChar(code[i])
  {
    if |code| != ROOM_CODE_LENGTH then Some(CODE_LENGTH)
    else if !(|code| >= 1 && forall i :: 0 <= i < |code| ==> IsCodeChar(code[i])) then Some(CODE_FORMAT)
    else None
  }

  // ---------------------------------------------------------------------------
  // Room-code sanitiser

  /** `toUpperCase` on one character, for the ASCII letters. */
  function UpperChar(c: char): char {
    if 'a' <= c <= 'z' then (c as int - 32) as char else c
  }

  function Upper(s: string): (r: string)
    ensures |r| == |s|
  {
    if s == [] then [] else [UpperChar(s[0])] + Upper(s[1..])
  }

  /** `replace(/[^A-Z0-9]/g, '')`. */
  function KeepCodeChars(s: string): string {
    if s == [] then []
    else (if IsCodeChar(s[0]) then [s[0]] else []) + KeepCodeChars(s[1..])
  }

  /** `slice(0, n)`. */
  function Slice(s: string, n: nat): string {
    if |s| <= n then s else s[..n]
  }

  /**
   * `handleRoomCodeInput`: upper-case, drop everything outside `[A-Z0-9]`,
   * keep six. The result holds only `[A-Z0-9]`, and at most six of them.
   */
  function SanitizeRoomCode(value: string): (r: string)
    ensures |r| <= ROOM_CODE_LENGTH
    ensures forall i :: 0 <= i < |r| ==> IsCodeChar(r[i])
  {
    KeepCodeCharsSpec(Upper(value));
    Slice(KeepCodeChars(Upper(value)), ROOM_CODE_LENGTH)
  }

  predicate IsAlnum(c: char) {
    ('a' <= c <= 'z') || ('A' <= c <= 'Z') || ('0' <= c <= '9')
  }

  /** The letters and digits of `s`, in order. */
  function Alnums(s: string): string {
    if s == [] then []
    else (if IsAlnum(s[0]) then [s[0]] else []) + Alnums(s[1..])
  }

  lemma {:induction false} KeepCodeCharsSpec(s: string)
    ensures forall i :: 0 <= i < |KeepCodeChars(s)| ==> IsCodeChar(KeepCodeChars(s)[i])
    ensures |KeepCodeChars(s)| <= |s|
  {
    if s != [] {
      KeepCodeCharsSpec(s[1..]);
      var head := if IsCodeChar(s[0]) then [s[0]] else [];
      assert KeepCodeChars(s) == head + KeepCodeChars(s[1..]);
    }
  }

  /**
   * Filtering after upper-casing is the same as taking the letters and
   * digits first and upper-casing them: the sanitised code is the first six
   * alphanumerics of the input, upper-cased, in order.
   */
  lemma {:induction false} SanitizeTakesFirstAlnums(value: string)
    ensures KeepCodeChars(Upper(value)) == Upper(Alnums(value))
    ensures SanitizeRoomCode(value) == Slice(Upper(Alnums(value)), ROOM_CODE_LENGTH)
  {
    if value != [] {
      SanitizeTakesFirstAlnums(value[1..]);
      var c := value[0];
      assert Upper(value)[1..] == Upper(value[1..]);
      assert IsCodeChar(UpperChar(c)) <==> IsAlnum(c);
      if IsAlnum(c) {
        assert Alnums(value) == [c] + Alnums(value[1..]);
        assert Upper([c] + Alnums(value[1..])) == [UpperChar(c)] + Upper(Alnums(value[1..])) by {
          assert ([c] + Alnums(value[1..]))[1..] == Alnums(value[1..]);
        }
      } else {
        assert Alnums(value) == Alnums(value[1..]);
      }
    }
  }

  lemma {:induction false} CodeIsFixedPoint(s: string)
    requires forall i :: 0 <= i < |s| ==> IsCodeChar(s[i])
    ensures Upper(s) == s && KeepCodeChars(s) == s
  {
    if s != [] {
      CodeIsFixedPoint(s[1..]);
      assert s == [s[0]] + s[1..];
    }
  }

  /** Sanitising a sanitised code changes nothing. */
  lemma SanitizeIdempotent(value: string)
    ensures SanitizeRoomCode(SanitizeRoomCode(value)) == SanitizeRoomCode(value)
  {
    CodeIsFixedPoint(SanitizeRoomCode(value));
  }

  /** A sanitised code of full length always passes `validateRoomCode`. */
  lemma FullSanitizedCodeValidates(value: string)
    requires |SanitizeRoomCode(value)| == ROOM_CODE_LENGTH
    ensures ValidateRoomCode(SanitizeRoomCode(value)).None?
  {
  }

  // ---------------------------------------------------------------------------
  // Join form submission

  datatype JoinOutcome =
    | JoinRejected(message: string)
    /** A stored session for the typed code: go to the room without joining. */
    | OpenExisting(roomCode: string)
    | JoinSent(roomCode: string, playerName: string, asSpectator: bool)

  /**
   * `handleSubmit` of the join form up to the `joinRoom` call. `routeCode`
   * is the `roomCode` prop (the code check runs only when it is absent or
   * empty), `code` the code field and `hasSession` whether storage holds a
   * session for that code. The form rejects exactly the bad names and, when
   * typed rather than taken from the route, the bad codes; a name error is
   * reported before a code error; anything it sends as typed input is a
   * valid `join_room` message.
   */
  function JoinSubmit(name: string, code: string, routeCode: Option<string>, hasSession: bool, spectator: bool): (r: JoinOutcome)
    ensures var noRoute := routeCode.None? || routeCode.value == "";
      && (r.JoinRejected? <==> !PlayerNameOk(name) || (noRoute && !RoomCodeOk(code)))
      && (!PlayerNameOk(name) ==> r == JoinRejected(ValidatePlayerName(name).value))
      && (r.OpenExisting? <==> hasSession && noRoute && PlayerNameOk(name) && RoomCodeOk(code))
      && (r.OpenExisting? ==> r.roomCode == code)
      && (r.JoinSent? ==> r == JoinSent(code, name, spectator))
      && (r.JoinSent? && noRoute ==> ValidMessage(JoinRoom(code, name, Some(spectator))))
  {
    var nameError := ValidatePlayerName(name);
    var noRoute := routeCode.None? || routeCode.value == "";
    if nameError.Some? then JoinRejected(nameError.value)
    else if noRoute && ValidateRoomCode(code).Some? then JoinRejected(ValidateRoomCode(code).value)
    else if hasSession && noRoute then OpenExisting(code)
    else JoinSent(code, name, spectator)
  }

  // ---------------------------------------------------------------------------
  // Create form submission

  /** The three round-count buttons. */
  datatype RoundsChoice = Quick | Standard | Long

  /** The three game-speed buttons. */
  datatype SpeedChoice = Relaxed | Normal | Fast

  datatype CreateChoices = CreateChoices(
    rounds: RoundsChoice, speed: SpeedChoice, allowSpectators: bool, voiceEnabled: bool)

  const INITIAL_CHOICES: CreateChoices := CreateChoices(Standard, Normal, true, true)

  function RoundsOf(r: RoundsChoice): int {
    match r
    case Quick => 3
    case Standard => 5
    case Long => 7
  }

  function TimeScaleOf(s: SpeedChoice): real {
    match s
    case Relaxed => 0.7
    case Normal => 1.0
    case Fast => 1.3
  }

  /**
   * The configuration literal `handleSubmit` hands to `createAndJoinRoom`:
   * whatever the buttons say, it passes the `create_room` config schema,
   * with eight seats, an automatic witness count and the two toggles as set.
   */
  function ConfigOf(ch: CreateChoices): (c: RoomConfig)
    ensures ValidConfig(c)
    ensures c.rounds in {3, 5, 7} && c.timeScale in {0.7, 1.0, 1.3}
    ensures c.maxPlayers == 8.0 && c.witnessCount == Auto
    ensures c.allowSpectators == ch.allowSpectators && c.voiceEnabled == ch.voiceEnabled
  {
    RoomConfig(RoundsOf(ch.rounds), TimeScaleOf(ch.speed), 8.0, Auto, ch.allowSpectators, ch.voiceEnabled)
  }

  datatype CreateOutcome =
    | CreateRejected(message: string)
    | CreateSent(playerName: string, config: RoomConfig)

  /**
   * `handleSubmit` of the create form up to the `createAndJoinRoom` call:
   * it rejects exactly the bad names, with the validator's message, and
   * whatever it sends is a valid `create_room` message.
   */
  function CreateSubmit(name: string, ch: CreateChoices): (r: CreateOutcome)
    ensures r.CreateRejected? <==> !PlayerNameOk(name)
    ensures r.CreateRejected? ==> r.message == ValidatePlayerName(name).value
    ensures r.CreateSent? ==> r == CreateSent(name, ConfigOf(ch)) && ValidMessage(CreateRoom(name, r.config))
  {
    var nameError := ValidatePlayerName(name);
    if nameError.Some? then CreateRejected(nameError.value) else CreateSent(name, ConfigOf(ch))
  }

  /**
   * The form opens on five rounds at normal speed with spectators and voice
   * on: the server's default configuration except for eight seats.
   */
  lemma InitialChoicesAreDefaults()
    ensures ConfigOf(INITIAL_CHOICES) == DEFAULT_CONFIG.(maxPlayers := MAX_PLAYERS as real)
  {
  }
}
