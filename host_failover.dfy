// Host failover when the host's connection drops in the middle of a game.
// `handlePlayerDisconnect` keeps the dropped host in the player map and
// `transferHost` promotes the first entry of that map, which under the room
// invariant is the host itself: the flag never moves and `host_transferred`
// names the dropped player as both the old and the new host. This module
// states that behaviour of the room as modelled in RoomSpec, and gives the
// evidently intended hand-off, to the first other player still connected to
// the game, with exactly one host afterwards.

module HostFailover {
  import opened Types
  import opened Messages
  import opened Keyed
  import opened RoomSpec
  import opened RoomInvariant

  /** Position of the first player, other than `previousHostId`, whose slot is not dropped. */
  function Successor(ps: seq<PlayerData>, previousHostId: string): (r: Option<nat>)
    ensures r.Some? ==> r.value < |ps| && ps[r.value].id != previousHostId && ps[r.value].connectionStatus != Dropped
    ensures r.Some? ==> forall j :: 0 <= j < r.value ==> ps[j].id == previousHostId || ps[j].connectionStatus == Dropped
    ensures r.None? ==> forall j :: 0 <= j < |ps| ==> ps[j].id == previousHostId || ps[j].connectionStatus == Dropped
  {
    if ps == [] then None
    else if ps[0].id != previousHostId && ps[0].connectionStatus != Dropped then Some(0)
    else
      match Successor(ps[1..], previousHostId)
      case None =>
        assert forall j :: 1 <= j < |ps| ==> ps[j] == ps[1..][j - 1];
        None
      case Some(i) =>
        assert forall j :: 1 <= j <= i ==> ps[j] == ps[1..][j - 1];
        Some(i + 1)
  }

  /**
   * The flag moves to the successor and off everyone else, every other field
   * of every player and of the room stays as it was, the new state is
   * persisted and the successor is announced; nothing happens when there is
   * no successor.
   */
  function HandOffHost(w: World, previousHostId: string): (r: World)
    ensures w.state.None? || Successor(w.state.value.players, previousHostId).None? ==> r == w
    ensures w.state.Some? && Successor(w.state.value.players, previousHostId).Some? ==>
      var st := w.state.value;
      var k := Successor(st.players, previousHostId).value;
      && r.state.Some? && r.storage == r.state && r.sessions == w.sessions
      && var ps' := r.state.value.players;
      && r.state.value == st.(players := ps')
      && |ps'| == |st.players|
      && (forall j :: 0 <= j < |ps'| ==> (ps'[j].isHost <==> j == k))
      && (forall j :: 0 <= j < |ps'| ==> ps'[j].(isHost := st.players[j].isHost) == st.players[j])
      && r.outbox == w.outbox + BroadcastLog(w.sessions, HostTransferred(st.players[k].id, st.players[k].name, previousHostId))
  {
    if w.state.None? then w
    else
      var st := w.state.value;
      match Successor(st.players, previousHostId)
      case None => w
      case Some(k) =>
        var ps := seq(|st.players|, j requires 0 <= j < |st.players| => st.players[j].(isHost := j == k));
        var h := st.players[k];
        Broadcast(PersistState(w.(state := Some(st.(players := ps)))), HostTransferred(h.id, h.name, previousHostId))
  }

  /**
   * The case `handlePlayerDisconnect` hands to `transferHost`: during a game
   * the host's connection drops while other players are seated.
   */
  predicate HostDropsMidGame(w: World, id: string) {
    && w.state.Some? && w.state.value.gameState != LobbyState && |w.state.value.players| > 1
    && Participant(w.state.value, id).Some? && Participant(w.state.value, id).value.isHost
  }

  /**
   * `handlePlayerDisconnect` with the in-game hand-off going to another
   * connected player. Outside the host-drop case it is the room's own
   * disconnect; in that case it keeps the sessions, the roster and its order.
   */
  function DisconnectWithHandOff(w: World, id: string): (r: World)
    ensures !HostDropsMidGame(w, id) ==> r == HandlePlayerDisconnect(w, id)
    ensures HostDropsMidGame(w, id) ==>
      && r.sessions == w.sessions && r.state.Some?
      && |r.state.value.players| == |w.state.value.players|
      && (forall j :: 0 <= j < |w.state.value.players| ==> r.state.value.players[j].id == w.state.value.players[j].id)
  {
    if w.state.None? then w
    else
      var st := w.state.value;
      var ip := IndexOf(st.players, PlayerId, id);
      var isp := IndexOf(st.spectators, PlayerId, id);
      if ip.None? && isp.None? then w
      else if st.gameState == LobbyState then RemovePlayer(w, id, Disconnected)
      else
        var i := if ip.Some? then ip.value else |st.players| + isp.value;
        var p := (st.players + st.spectators)[i];
        assert Participant(st, id) == Some(p);
        if p.isHost && |st.players| > 1 then
          var st' := SetStatusAt(st, i, Dropped);
          var w1 := Broadcast(PersistState(w.(state := Some(st'))), PlayerConnectionChanged(id, Dropped));
          assert w1.sessions == w.sessions && w1.state == Some(st');
          assert forall j :: 0 <= j < |st.players| ==> st'.players[j].id == st.players[j].id;
          HandOffKeepsRoster(w1, id);
          HandOffHost(w1, id)
        else MarkDropped(w, id, i)
  }

  // ---------------------------------------------------------------------------
  // Properties

  /**
   * As written: when the host's socket closes during a game with others at
   * the table, the host keeps the flag while dropped, no one else gains it,
   * and the room announces a transfer from the host to the host.
   */
  lemma DroppedHostKeepsHost(w: World, id: string)
    requires w.state.Some? && w.state.value.gameState != LobbyState
    requires |w.state.value.players| > 1 && w.state.value.players[0].id == id
    requires HostInvariant(w.state.value.players)
    ensures var st := w.state.value;
      var p := st.players[0];
      var r := HandlePlayerDisconnect(w, id);
      && r.state == Some(st.(players := st.players[0 := p.(connectionStatus := Dropped)]))
      && r.state.value.players[0].isHost
      && (forall j :: 1 <= j < |st.players| ==> !r.state.value.players[j].isHost)
      && r.outbox == w.outbox + BroadcastLog(w.sessions, PlayerConnectionChanged(id, Dropped))
                              + BroadcastLog(w.sessions, HostTransferred(id, p.name, id))
  {
    var st := w.state.value;
    var p := st.players[0];
    assert IndexOf(st.players, PlayerId, id) == Some(0);
    var st' := SetStatusAt(st, 0, Dropped);
    assert st'.players == st.players[0 := p.(connectionStatus := Dropped)];
    assert st'.players[0 := st'.players[0].(isHost := true)] == st'.players;
  }

  /**
   * Intended: the same disconnect, with some other player still connected,
   * hands the flag to the first such player and to nobody else; the dropped
   * host loses it, the roster keeps its order, and the announcement names
   * the new host.
   */
  lemma {:induction false} HandOffMovesHost(w: World, id: string)
    requires w.state.Some? && w.state.value.gameState != LobbyState
    requires |w.state.value.players| > 1 && w.state.value.players[0].id == id
    requires UniqueKeys(w.state.value.players, PlayerId) && w.state.value.players[0].isHost
    requires exists j :: 0 < j < |w.state.value.players| && w.state.value.players[j].connectionStatus != Dropped
    ensures var ps := w.state.value.players;
      var r := DisconnectWithHandOff(w, id);
      && r.state.Some? && r.storage == r.state && r.sessions == w.sessions
      && var ps' := r.state.value.players;
      && |ps'| == |ps|
      && (forall j :: 0 <= j < |ps| ==> ps'[j].id == ps[j].id && ps'[j].name == ps[j].name)
      && ps'[0].connectionStatus == Dropped && !ps'[0].isHost
      && exists k :: 0 < k < |ps| && ps[k].connectionStatus != Dropped
          && (forall j :: 0 < j < k ==> ps[j].connectionStatus == Dropped)
          && (forall j :: 0 <= j < |ps| ==> (ps'[j].isHost <==> j == k))
          && r.outbox == w.outbox + BroadcastLog(w.sessions, PlayerConnectionChanged(id, Dropped))
                                  + BroadcastLog(w.sessions, HostTransferred(ps[k].id, ps[k].name, id))
  {
    var st := w.state.value;
    var ps := st.players;
    assert IndexOf(ps, PlayerId, id) == Some(0);
    assert ps[0].isHost;
    var st' := SetStatusAt(st, 0, Dropped);
    assert st'.players == ps[0 := ps[0].(connectionStatus := Dropped)];
    SuccessorAfterDrop(ps, id);
    var w1 := Broadcast(PersistState(w.(state := Some(st'))), PlayerConnectionChanged(id, Dropped));
    var r := HandOffHost(w1, id);
    assert DisconnectWithHandOff(w, id) == r;
    var k := Successor(st'.players, id).value;
    var ps' := r.state.value.players;
    assert forall j :: 0 <= j < |ps| ==> (ps'[j].isHost <==> j == k);
    assert r.outbox == w.outbox + BroadcastLog(w.sessions, PlayerConnectionChanged(id, Dropped))
                                + BroadcastLog(w.sessions, HostTransferred(ps[k].id, ps[k].name, id));
  }

  /** Once the host at the head is marked dropped, the successor is the first other connected player. */
  lemma SuccessorAfterDrop(ps: seq<PlayerData>, id: string)
    requires UniqueKeys(ps, PlayerId) && |ps| > 1 && ps[0].id == id
    requires exists j :: 0 < j < |ps| && ps[j].connectionStatus != Dropped
    ensures var ps1 := ps[0 := ps[0].(connectionStatus := Dropped)];
      var s := Successor(ps1, id);
      && s.Some? && 0 < s.value && ps1[s.value] == ps[s.value]
      && ps[s.value].connectionStatus != Dropped
      && (forall j :: 0 < j < s.value ==> ps[j].connectionStatus == Dropped)
  {
    var ps1 := ps[0 := ps[0].(connectionStatus := Dropped)];
    var j0 :| 0 < j0 < |ps| && ps[j0].connectionStatus != Dropped;
    assert ps[j0].id != id by {
      assert PlayerId(ps[0]) != PlayerId(ps[j0]);
    }
    var s := Successor(ps1, id);
    assert s.Some? by {
      assert ps1[j0] == ps[j0];
    }
    var k := s.value;
    assert 0 < k && ps1[k] == ps[k];
    forall j | 0 < j < k ensures ps[j].connectionStatus == Dropped {
      assert ps1[j] == ps[j];
      assert PlayerId(ps[0]) != PlayerId(ps[j]);
    }
  }

  /** The hand-off keeps the sessions, the roster's length and every id in place. */
  lemma HandOffKeepsRoster(w: World, previousHostId: string)
    requires w.state.Some?
    ensures var r := HandOffHost(w, previousHostId);
      && r.sessions == w.sessions && r.state.Some?
      && |r.state.value.players| == |w.state.value.players|
      && (forall j :: 0 <= j < |w.state.value.players| ==> r.state.value.players[j].id == w.state.value.players[j].id)
  {
    var r := HandOffHost(w, previousHostId);
    var ps := w.state.value.players;
    if Successor(ps, previousHostId).Some? {
      forall j | 0 <= j < |ps| ensures r.state.value.players[j].id == ps[j].id {
        assert r.state.value.players[j].(isHost := ps[j].isHost) == ps[j];
      }
    }
  }
}
