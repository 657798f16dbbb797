// The browser's game store (apps/web/src/stores/game.ts) and the reducer
// that `handleMessage` in apps/web/src/lib/game-client.ts applies to it for
// each server message; the six kinds its switch has no case for leave the
// store as it is (`Unhandled`). Each case there hands `setGame` either a partial
// object, which the store merges into its top level, or an updater built
// from spread, map and filter; both become one pure function here. Toasts,
// console output, `setSession` and the ping bookkeeping are left out.

module GameClient {
  import opened Types
  import opened Messages
  import Keyed

  datatype GameStore = GameStore(
    phase: Phase,
    round: int,
    totalRounds: int,
    players: seq<Player>,
    spectators: seq<Player>,
    timeRemaining: int,
    role: Option<Role>,
    fragments: seq<string>,
    hints: seq<string>,
    roomCode: Option<string>,
    playerId: Option<string>,
    isHost: bool,
    isSpectator: bool,
    config: Option<RoomConfig>,
    memoryPrompt: Option<string>,
    detailQuestion: Option<string>,
    details: map<string, string>,
    submittedPlayers: seq<string>,
    votedPlayers: seq<string>,
    witnessIds: seq<string>,
    witnessNames: seq<string>,
    synced: bool)

  /** The store before any message arrives (`initialState`). */
  const INITIAL: GameStore := GameStore(
    Lobby, 0, 0, [], [], 0, None, [], [], None, None, false, false, None, None, None,
    map[], [], [], [], [], false)

  predicate HasId(ps: seq<Player>, id: string) {
    exists i :: 0 <= i < |ps| && ps[i].id == id
  }

  /** `list.filter(p => p.id !== id)`. */
  function Without(ps: seq<Player>, id: string): seq<Player> {
    if ps == [] then []
    else (if ps[0].id == id then [] else [ps[0]]) + Without(ps[1..], id)
  }

  /** `list.map(p => p.id === id ? {...p, isReady: ready} : p)`. */
  function WithReady(ps: seq<Player>, id: string, ready: bool): seq<Player> {
    seq(|ps|, i requires 0 <= i < |ps| => if ps[i].id == id then ps[i].(isReady := ready) else ps[i])
  }

  function WithStatus(ps: seq<Player>, id: string, status: ConnectionStatus): seq<Player> {
    seq(|ps|, i requires 0 <= i < |ps| => if ps[i].id == id then ps[i].(connectionStatus := status) else ps[i])
  }

  function WithHost(ps: seq<Player>, id: string): seq<Player> {
    seq(|ps|, i requires 0 <= i < |ps| => ps[i].(isHost := ps[i].id == id))
  }

  /** `totalScores[p.id] ?? p.score` for every player. */
  function WithScores(ps: seq<Player>, totals: map<string, int>): seq<Player> {
    seq(|ps|, i requires 0 <= i < |ps| =>
      ps[i].(score := if ps[i].id in totals then totals[ps[i].id] else ps[i].score))
  }

  function Unready(ps: seq<Player>): seq<Player> {
    seq(|ps|, i requires 0 <= i < |ps| => ps[i].(isReady := false))
  }

  /** `players?.find(p => p.id === prev.playerId)`. */
  function FindPlayer(ps: seq<Player>, id: Option<string>): Option<Player> {
    if id.None? || ps == [] then None
    else if ps[0].id == id.value then Some(ps[0])
    else FindPlayer(ps[1..], id)
  }

  /** The messages whose payload carries a `timeRemaining`. */
  predicate CarriesTime(m: ServerMessage) {
    m.MemoryRevealed? || m.RoleAssigned? || m.DetailQuestion? || m.DetailsRevealed?
    || m.VotingStarted? || m.RoundResults? || m.PhaseTimeUpdate?
  }

  /**
   * The kinds `handleMessage`'s switch has no case for: voice status,
   * questions and answers, vote calls, voided rounds and room closure.
   */
  predicate Unhandled(m: ServerMessage) {
    m.PlayerVoiceChanged? || m.QuestionAsked? || m.QuestionAnswered? || m.VoteCallUpdate?
    || m.RoundVoided? || m.RoomClosed?
  }

  /**
   * The store after `handleMessage` processes one server message.
   * `room_created` and `room_joined` install the room identity (code, own
   * id, configuration) and return to the lobby; `pong` and `error` change
   * nothing (`ReduceIgnoresUnhandled`: nor does a kind the switch does not
   * handle).
   */
  function Reduce(g: GameStore, m: ServerMessage): (r: GameStore)
    ensures m.RoomCreated? || m.RoomJoined? ==>
      r.roomCode == Some(m.roomCode) && r.playerId == Some(m.playerId) && r.config == Some(m.config) && r.phase == Lobby
    ensures m.Pong? || m.Error? ==> r == g
  {
    match m
    case RoomCreated(code, _, id, config) =>
      // the payload's isHost is the literal `true`
      g.(roomCode := Some(code), playerId := Some(id), isHost := true, isSpectator := false,
         players := [], spectators := [], config := Some(config), phase := Lobby)
    case RoomJoined(code, _, id, host, spectator, players, spectators, config) =>
      g.(roomCode := Some(code), playerId := Some(id), isHost := host, isSpectator := spectator,
         players := players, spectators := spectators, config := Some(config), phase := Lobby)
    case PlayerJoined(p, spectator) =>
      if spectator then
        if HasId(g.spectators, p.id) then g else g.(spectators := g.spectators + [p])
      else
        if HasId(g.players, p.id) then g else g.(players := g.players + [p])
    case PlayerLeft(id, _, _) =>
      g.(players := Without(g.players, id), spectators := Without(g.spectators, id))
    case PlayerReadyChanged(id, ready) =>
      g.(players := WithReady(g.players, id, ready))
    case PlayerConnectionChanged(id, status) =>
      g.(players := WithStatus(g.players, id, status), spectators := WithStatus(g.spectators, id, status))
    case HostTransferred(newHost, _, _) =>
      g.(isHost := g.playerId == Some(newHost), players := WithHost(g.players, newHost))
    case GameStarted(total, _) =>
      g.(totalRounds := total, round := 1, phase := Memory)
    case RoundStarted(n, total) =>
      g.(round := n, totalRounds := total)
    case MemoryRevealed(prompt, t) =>
      g.(phase := Memory, memoryPrompt := Some(prompt), timeRemaining := t)
    case RoleAssigned(role, fragments, hints, t) =>
      g.(phase := Roles, role := Some(role),
         fragments := if fragments.Some? then fragments.value else [],
         hints := if hints.Some? then hints.value else [], timeRemaining := t)
    case DetailQuestion(q, t) =>
      g.(phase := Details, detailQuestion := Some(q), timeRemaining := t, submittedPlayers := [])
    case PlayerSubmittedDetail(id, _) =>
      g.(submittedPlayers := g.submittedPlayers + [id])
    case DetailsRevealed(details, t) =>
      g.(phase := Questions, details := details, timeRemaining := t)
    case VotingStarted(t) =>
      g.(phase := Voting, timeRemaining := t, votedPlayers := [])
    case PlayerVoted(id, _) =>
      g.(votedPlayers := g.votedPlayers + [id])
    case RoundResults(totals, t) =>
      g.(phase := Results, timeRemaining := t, players := WithScores(g.players, totals))
    case GameFinished(_, _, _, _, _) =>
      g.(phase := Lobby, players := Unready(g.players))
    case PhaseTimeUpdate(t) =>
      g.(timeRemaining := t)
    case ReconnectSuccess(_, phase, n, role, fragments, hints, players, _) =>
      var me := if players.Some? then FindPlayer(players.value, g.playerId) else None;
      g.(phase := phase, round := n, role := role,
         fragments := if fragments.Some? then fragments.value else [],
         hints := if hints.Some? then hints.value else [],
         players := if players.Some? then players.value else g.players,
         isHost := if me.Some? then me.value.isHost else g.isHost)
    case Pong(_) => g
    case Error(_, _) => g
    case PlayerVoiceChanged(_, _) => g
    case QuestionAsked(_, _, _, _, _, _) => g
    case QuestionAnswered(_, _) => g
    case VoteCallUpdate(_, _, _, _) => g
    case RoundVoided(_, _) => g
    case RoomClosed(_) => g
  }

  /**
   * Only `room_created` and `room_joined` change the room identity (code,
   * own id, spectator flag, configuration), and no message touches the sync
   * flag.
   */
  lemma ReduceKeepsIdentity(g: GameStore, m: ServerMessage)
    ensures !(m.RoomCreated? || m.RoomJoined?) ==>
      var r := Reduce(g, m);
      r.roomCode == g.roomCode && r.playerId == g.playerId && r.isSpectator == g.isSpectator && r.config == g.config
    ensures Reduce(g, m).synced == g.synced
  {
  }

  /** A message whose kind the switch has no case for leaves the store as it is. */
  lemma ReduceIgnoresUnhandled(g: GameStore, m: ServerMessage)
    ensures Unhandled(m) ==> Reduce(g, m) == g
  {
  }

  /** The countdown follows exactly the messages that carry one. */
  lemma ReduceCountdown(g: GameStore, m: ServerMessage)
    ensures CarriesTime(m) ==> Reduce(g, m).timeRemaining == m.timeRemaining
    ensures !CarriesTime(m) ==> Reduce(g, m).timeRemaining == g.timeRemaining
  {
  }

  // ---------------------------------------------------------------------------
  // Lists

  /** Filtering keeps exactly the entries with another id. */
  lemma {:induction false} WithoutMembers(ps: seq<Player>, id: string)
    ensures forall p :: p in Without(ps, id) <==> p in ps && p.id != id
  {
    if ps != [] {
      WithoutMembers(ps[1..], id);
      assert ps == [ps[0]] + ps[1..];
    }
  }

  function PlayerKey(p: Player): string {
    p.id
  }

  /** The client's filter by id and the server's `Map.delete` drop the same entries, in the same way. */
  lemma {:induction false} WithoutIsRemove(ps: seq<Player>, id: string)
    ensures Without(ps, id) == Keyed.Remove(ps, PlayerKey, id)
  {
    if ps != [] {
      WithoutIsRemove(ps[1..], id);
    }
  }

  /** With distinct ids, filtering the id at position `i` cuts out that entry and keeps the rest in order. */
  lemma WithoutKeepsOrder(ps: seq<Player>, i: nat)
    requires Keyed.UniqueKeys(ps, PlayerKey) && i < |ps|
    ensures Without(ps, ps[i].id) == ps[..i] + ps[i + 1..]
  {
    WithoutIsRemove(ps, ps[i].id);
    Keyed.RemoveKeepsOrder(ps, PlayerKey, i);
  }

  /** No entry with the filtered id survives. */
  lemma WithoutLacksId(ps: seq<Player>, id: string)
    ensures !HasId(Without(ps, id), id)
  {
    WithoutMembers(ps, id);
    var r := Without(ps, id);
    forall j | 0 <= j < |r| ensures r[j].id != id {
      assert r[j] in r;
    }
  }

  /** Filtering an id that is absent changes nothing. */
  lemma {:induction false} WithoutAbsent(ps: seq<Player>, id: string)
    requires !HasId(ps, id)
    ensures Without(ps, id) == ps
  {
    if ps != [] {
      assert !HasId(ps[1..], id) by {
        forall j | 0 <= j < |ps[1..]| ensures ps[1..][j].id != id {
          assert ps[1..][j] == ps[j + 1];
        }
      }
      WithoutAbsent(ps[1..], id);
      assert ps[0].id != id;
      assert ps == [ps[0]] + ps[1..];
    }
  }

  /** Filtering distributes over an appended entry. */
  lemma {:induction false} WithoutAppend(ps: seq<Player>, p: Player, id: string)
    ensures Without(ps + [p], id) == Without(ps, id) + (if p.id == id then [] else [p])
  {
    if ps == [] {
      assert [p][1..] == [];
    } else {
      assert (ps + [p])[1..] == ps[1..] + [p];
      WithoutAppend(ps[1..], p, id);
    }
  }

  // ---------------------------------------------------------------------------
  // Reducer properties

  /**
   * `player_joined` leaves the store alone when the target list already
   * holds the id, and otherwise appends the player to that list only.
   */
  lemma PlayerJoinedAppendsOnce(g: GameStore, p: Player, spectator: bool)
    ensures var r := Reduce(g, PlayerJoined(p, spectator));
      && (spectator && HasId(g.spectators, p.id) ==> r == g)
      && (!spectator && HasId(g.players, p.id) ==> r == g)
      && (spectator && !HasId(g.spectators, p.id) ==> r == g.(spectators := g.spectators + [p]))
      && (!spectator && !HasId(g.players, p.id) ==> r == g.(players := g.players + [p]))
  {
  }

  /** Delivering the same `player_joined` twice has the effect of delivering it once. */
  lemma {:induction false} PlayerJoinedIdempotent(g: GameStore, p: Player, spectator: bool)
    ensures Reduce(Reduce(g, PlayerJoined(p, spectator)), PlayerJoined(p, spectator)) == Reduce(g, PlayerJoined(p, spectator))
  {
    var r := Reduce(g, PlayerJoined(p, spectator));
    if spectator {
      assert r.spectators[|r.spectators| - 1].id == p.id || HasId(g.spectators, p.id);
    } else {
      assert r.players[|r.players| - 1].id == p.id || HasId(g.players, p.id);
    }
  }

  /**
   * `player_left` removes every entry with the id from both lists and
   * changes nothing else.
   */
  lemma {:induction false} PlayerLeftRemoves(g: GameStore, id: string, name: string, reason: LeaveReason)
    ensures var r := Reduce(g, PlayerLeft(id, name, reason));
      && !HasId(r.players, id) && !HasId(r.spectators, id)
      && (forall p :: p in r.players <==> p in g.players && p.id != id)
      && (forall p :: p in r.spectators <==> p in g.spectators && p.id != id)
      && r.(players := g.players, spectators := g.spectators) == g
  {
    WithoutMembers(g.players, id);
    WithoutMembers(g.spectators, id);
    WithoutLacksId(g.players, id);
    WithoutLacksId(g.spectators, id);
  }

  /** A player who joins and then leaves leaves the store as it was, when the id was new to the room. */
  lemma {:induction false} JoinThenLeave(g: GameStore, p: Player, spectator: bool, reason: LeaveReason)
    requires !HasId(g.players, p.id) && !HasId(g.spectators, p.id)
    ensures Reduce(Reduce(g, PlayerJoined(p, spectator)), PlayerLeft(p.id, p.name, reason)) == g
  {
    WithoutAbsent(g.players, p.id);
    WithoutAbsent(g.spectators, p.id);
    var j := Reduce(g, PlayerJoined(p, spectator));
    if spectator {
      assert j == g.(spectators := g.spectators + [p]);
      WithoutAppend(g.spectators, p, p.id);
    } else {
      assert j == g.(players := g.players + [p]);
      WithoutAppend(g.players, p, p.id);
    }
    assert Reduce(j, PlayerLeft(p.id, p.name, reason))
        == j.(players := Without(j.players, p.id), spectators := Without(j.spectators, p.id));
  }

  /** `player_ready_changed` sets only the matching players' ready flag; length and order stay. */
  lemma ReadyChangedTouchesOnlyTarget(g: GameStore, id: string, ready: bool)
    ensures var r := Reduce(g, PlayerReadyChanged(id, ready));
      && |r.players| == |g.players|
      && (forall i :: 0 <= i < |g.players| ==>
            r.players[i] == if g.players[i].id == id then g.players[i].(isReady := ready) else g.players[i])
      && r.(players := g.players) == g
  {
  }

  /**
   * After `host_transferred` exactly the entries with the new host's id are
   * flagged host, and the local flag says whether this client is the host.
   */
  lemma HostTransferredFlags(g: GameStore, newHost: string, name: string, previous: string)
    ensures var r := Reduce(g, HostTransferred(newHost, name, previous));
      && |r.players| == |g.players|
      && (forall i :: 0 <= i < |r.players| ==> (r.players[i].isHost <==> r.players[i].id == newHost))
      && (forall i :: 0 <= i < |r.players| ==> r.players[i].(isHost := g.players[i].isHost) == g.players[i])
      && (r.isHost <==> g.playerId == Some(newHost))
  {
  }

  /** With distinct ids and the new host present, exactly one player is flagged host afterwards. */
  lemma {:induction false} HostTransferredSingleHost(g: GameStore, newHost: string, name: string, previous: string, k: nat)
    requires k < |g.players| && g.players[k].id == newHost
    requires forall i, j :: 0 <= i < j < |g.players| ==> g.players[i].id != g.players[j].id
    ensures var r := Reduce(g, HostTransferred(newHost, name, previous));
      forall i :: 0 <= i < |r.players| ==> (r.players[i].isHost <==> i == k)
  {
    var r := Reduce(g, HostTransferred(newHost, name, previous));
    forall i | 0 <= i < |r.players| ensures r.players[i].isHost <==> i == k {
      assert r.players[i].id == g.players[i].id;
      if i < k {
        assert g.players[i].id != g.players[k].id;
      } else if k < i {
        assert g.players[k].id != g.players[i].id;
      }
    }
  }

  /** `round_results` enters the results phase and takes each listed total, keeping unlisted scores. */
  lemma RoundResultsScores(g: GameStore, totals: map<string, int>, t: int)
    ensures var r := Reduce(g, RoundResults(totals, t));
      && r.phase == Results && r.timeRemaining == t && |r.players| == |g.players|
      && (forall i :: 0 <= i < |g.players| ==>
            && r.players[i].(score := g.players[i].score) == g.players[i]
            && (g.players[i].id in totals ==> r.players[i].score == totals[g.players[i].id])
            && (g.players[i].id !in totals ==> r.players[i].score == g.players[i].score))
  {
  }

  /** `game_finished` returns to the lobby phase with every player not ready. */
  lemma GameFinishedUnreadies(g: GameStore, reason: GameFinishedReason, scores: map<string, int>, w: Winner, done: int, total: int)
    ensures var r := Reduce(g, GameFinished(reason, scores, w, done, total));
      && r.phase == Lobby && |r.players| == |g.players|
      && (forall i :: 0 <= i < |r.players| ==> !r.players[i].isReady && r.players[i].(isReady := g.players[i].isReady) == g.players[i])
  {
  }

  /**
   * A new detail question clears the submitted list and the start of voting
   * clears the voted list; the per-player notices append without removing
   * duplicates.
   */
  lemma ProgressListsResetAndAppend(g: GameStore, q: string, t: int, id: string, name: string)
    ensures Reduce(g, DetailQuestion(q, t)).submittedPlayers == []
    ensures Reduce(g, VotingStarted(t)).votedPlayers == []
    ensures Reduce(g, PlayerSubmittedDetail(id, name)).submittedPlayers == g.submittedPlayers + [id]
    ensures Reduce(g, PlayerVoted(id, name)).votedPlayers == g.votedPlayers + [id]
    ensures |Reduce(Reduce(g, PlayerVoted(id, name)), PlayerVoted(id, name)).votedPlayers| == |g.votedPlayers| + 2
  {
  }
}
