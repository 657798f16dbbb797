// `WebSocketClient` (apps/web/src/lib/ws.ts) as a class whose methods and
// socket callbacks update its counters and flags in place. Each method is
// proved to reach the state the matching transition of WsSpec prescribes,
// so the backoff and heartbeat properties proved there hold of the class.

module Ws {
  import opened Types
  import opened Messages
  import opened WsSpec

  class WebSocketClient {
    var ws: Option<ReadyState>
    var pingInterval: Option<nat>
    var liveIntervals: set<nat>
    var nextHandle: nat
    var reconnectAttempts: nat
    var maxReconnectAttempts: nat
    var statuses: seq<Status>
    var sent: seq<ClientMessage>
    var reconnectDelays: seq<nat>

    function Model(): Client
      reads this
    {
      Client(ws, pingInterval, liveIntervals, nextHandle, reconnectAttempts,
             maxReconnectAttempts, statuses, sent, reconnectDelays)
    }

    constructor()
      ensures Model() == INITIAL_CLIENT
    {
      ws := None;
      pingInterval := None;
      liveIntervals := {};
      nextHandle := 1;
      reconnectAttempts := 0;
      maxReconnectAttempts := MAX_RECONNECT_ATTEMPTS;
      statuses := [];
      sent := [];
      reconnectDelays := [];
    }

    method Connect(constructible: bool)
      modifies this
      ensures Model() == WsSpec.Connect(old(Model()), constructible)
    {
      statuses := statuses + [StatusConnecting];
      if constructible {
        ws := Some(Connecting);
      } else {
        statuses := statuses + [StatusError];
      }
    }

    /** The socket's `onopen` callback. */
    method OnOpen()
      modifies this
      ensures Model() == WsSpec.OnOpen(old(Model()))
    {
      if ws.Some? {
        ws := Some(Open);
      }
      reconnectAttempts := 0;
      statuses := statuses + [StatusConnected];
      StartHeartbeat();
    }

    /** The socket's `onclose` callback. */
    method OnClose()
      modifies this
      ensures Model() == WsSpec.OnClose(old(Model()))
    {
      if ws.Some? {
        ws := Some(Closed);
      }
      StopHeartbeat();
      statuses := statuses + [StatusDisconnected];
      AttemptReconnect();
    }

    /** The socket's `onerror` callback. */
    method OnError()
      modifies this
      ensures Model() == WsSpec.OnError(old(Model()))
    {
      statuses := statuses + [StatusError];
    }

    method Send(m: ClientMessage)
      modifies this
      ensures Model() == WsSpec.Send(old(Model()), m)
    {
      if ws == Some(Open) {
        sent := sent + [m];
      }
    }

    method Disconnect()
      modifies this
      ensures Model() == WsSpec.Disconnect(old(Model()))
    {
      StopHeartbeat();
      maxReconnectAttempts := 0;
      // `ws.close()` affects only the socket the client is about to let go of
      ws := None;
    }

    method StartHeartbeat()
      modifies this
      ensures Model() == WsSpec.StartHeartbeat(old(Model()))
    {
      pingInterval := Some(nextHandle);
      liveIntervals := liveIntervals + {nextHandle};
      nextHandle := nextHandle + 1;
    }

    method StopHeartbeat()
      modifies this
      ensures Model() == WsSpec.StopHeartbeat(old(Model()))
    {
      if pingInterval.Some? {
        liveIntervals := liveIntervals - {pingInterval.value};
        pingInterval := None;
      }
    }

    method AttemptReconnect()
      modifies this
      ensures Model() == WsSpec.AttemptReconnect(old(Model()))
    {
      if reconnectAttempts >= maxReconnectAttempts {
        return;
      }
      reconnectAttempts := reconnectAttempts + 1;
      var delay := RECONNECT_DELAY * Pow2(reconnectAttempts - 1);
      reconnectDelays := reconnectDelays + [delay];
    }

    /** Interval `h` fires: ping with the clock reading `now`. */
    method HeartbeatTick(h: nat, now: int)
      modifies this
      ensures Model() == WsSpec.HeartbeatTick(old(Model()), h, now)
    {
      if h in liveIntervals {
        Send(Ping(now as real));
      }
    }
  }
}
