// The browser's `WebSocketClient` (apps/web/src/lib/ws.ts) as a transition
// system over its counters and flags. The browser runtime becomes fields:
// `ws` is the current socket's readyState (None for `null`), `pingInterval`
// the handle of the heartbeat interval, `liveIntervals` every interval still
// registered with `window`, `statuses` the calls to `onStatusChange`, `sent`
// the frames handed to the socket and `reconnectDelays` the `setTimeout`
// delays scheduled for a reconnect. Timers do not fire by themselves: the
// environment fires them by calling `Connect` or `HeartbeatTick`.

module WsSpec {
  import opened Types
  import opened Constants
  import opened Messages

  datatype ReadyState = Connecting | Open | Closing | Closed

  datatype Status = StatusConnecting | StatusConnected | StatusDisconnected | StatusError

  datatype Client = Client(
    ws: Option<ReadyState>,
    pingInterval: Option<nat>,
    liveIntervals: set<nat>,
    nextHandle: nat,
    reconnectAttempts: nat,
    maxReconnectAttempts: nat,
    statuses: seq<Status>,
    sent: seq<ClientMessage>,
    reconnectDelays: seq<nat>)

  const RECONNECT_DELAY: nat := 1000
  const MAX_RECONNECT_ATTEMPTS: nat := 5

  /** A freshly constructed client; browsers hand out interval handles from 1. */
  const INITIAL_CLIENT: Client :=
    Client(None, None, {}, 1, 0, MAX_RECONNECT_ATTEMPTS, [], [], [])

  function Pow2(n: nat): (r: nat)
    ensures r >= 1
  {
    if n == 0 then 1 else 2 * Pow2(n - 1)
  }

  /** The delay before reconnect number `n` (counted from 1). */
  function Delay(n: nat): nat
    requires n >= 1
  {
    RECONNECT_DELAY * Pow2(n - 1)
  }

  /**
   * The heartbeat handle is always registered, and every registered handle
   * was handed out before.
   */
  predicate Valid(c: Client) {
    && c.nextHandle >= 1
    && (c.pingInterval.Some? ==> c.pingInterval.value in c.liveIntervals)
    && (forall h :: h in c.liveIntervals ==> 1 <= h < c.nextHandle)
  }

  // ---------------------------------------------------------------------------
  // Transitions

  /**
   * `connect`: report connecting and open a new socket. `constructible` is
   * false when `new WebSocket` throws, in which case `ws` keeps its old value
   * and an error is reported.
   */
  function Connect(c: Client, constructible: bool): Client {
    var c1 := c.(statuses := c.statuses + [StatusConnecting]);
    if constructible then c1.(ws := Some(Connecting))
    else c1.(statuses := c1.statuses + [StatusError])
  }

  function StartHeartbeat(c: Client): Client {
    c.(pingInterval := Some(c.nextHandle),
       liveIntervals := c.liveIntervals + {c.nextHandle},
       nextHandle := c.nextHandle + 1)
  }

  function StopHeartbeat(c: Client): Client {
    if c.pingInterval.Some? then
      c.(liveIntervals := c.liveIntervals - {c.pingInterval.value}, pingInterval := None)
    else c
  }

  /** `onopen`: the socket is open; the counter resets and the heartbeat starts. */
  function OnOpen(c: Client): Client {
    var c1 := c.(ws := if c.ws.Some? then Some(Open) else None);
    StartHeartbeat(c1.(reconnectAttempts := 0, statuses := c1.statuses + [StatusConnected]))
  }

  function AttemptReconnect(c: Client): Client {
    if c.reconnectAttempts >= c.maxReconnectAttempts then c
    else
      var n := c.reconnectAttempts + 1;
      c.(reconnectAttempts := n, reconnectDelays := c.reconnectDelays + [Delay(n)])
  }

  /** `onclose`: stop the heartbeat, report the loss and try to reconnect. */
  function OnClose(c: Client): Client {
    var c1 := c.(ws := if c.ws.Some? then Some(Closed) else None);
    var c2 := StopHeartbeat(c1);
    AttemptReconnect(c2.(statuses := c2.statuses + [StatusDisconnected]))
  }

  function OnError(c: Client): Client {
    c.(statuses := c.statuses + [StatusError])
  }

  /** `send`: a frame goes out only on an open socket. */
  function Send(c: Client, m: ClientMessage): Client {
    if c.ws == Some(Open) then c.(sent := c.sent + [m]) else c
  }

  /** `disconnect`: stop the heartbeat, forbid reconnects, close and drop the socket. */
  function Disconnect(c: Client): Client {
    var c1 := StopHeartbeat(c).(maxReconnectAttempts := 0);
    c1.(ws := None)
  }

  /** A registered heartbeat interval fires and pings with the current clock. */
  function HeartbeatTick(c: Client, h: nat, now: int): Client {
    if h in c.liveIntervals then Send(c, Ping(now as real)) else c
  }

  /** `k` close events with no open in between. */
  function Closes(c: Client, k: nat): Client
    decreases k
  {
    if k == 0 then c else Closes(OnClose(c), k - 1)
  }

  /** The delays of reconnects number `a + 1` up to `b`. */
  function DelaysBetween(a: nat, b: nat): (r: seq<nat>)
    requires a <= b
    ensures |r| == b - a
    decreases b - a
  {
    if a == b then [] else [Delay(a + 1)] + DelaysBetween(a + 1, b)
  }

  function Min(a: nat, b: nat): nat {
    if a <= b then a else b
  }

  // ---------------------------------------------------------------------------
  // Properties

  /** Every transition keeps the heartbeat handle registered. */
  lemma TransitionsKeepValid(c: Client, constructible: bool, m: ClientMessage, h: nat, now: int)
    requires Valid(c)
    ensures Valid(Connect(c, constructible)) && Valid(OnOpen(c)) && Valid(OnClose(c))
    ensures Valid(OnError(c)) && Valid(Send(c, m)) && Valid(Disconnect(c))
    ensures Valid(HeartbeatTick(c, h, now))
  {
  }

  /** A successful open resets the reconnect counter and leaves exactly one new heartbeat running. */
  lemma OpenResetsCounter(c: Client)
    requires Valid(c)
    ensures var r := OnOpen(c);
      && r.reconnectAttempts == 0
      && r.pingInterval == Some(c.nextHandle) && c.nextHandle !in c.liveIntervals
      && r.liveIntervals == c.liveIntervals + {c.nextHandle}
      && r.statuses == c.statuses + [StatusConnected]
      && (c.ws.Some? ==> r.ws == Some(Open))
  {
  }

  /**
   * `attemptReconnect` does nothing once the counter reaches the maximum;
   * otherwise it counts one more attempt and schedules it after
   * `1000 · 2^(attempts − 1)` ms.
   */
  lemma AttemptReconnectSpec(c: Client)
    ensures c.reconnectAttempts >= c.maxReconnectAttempts ==> AttemptReconnect(c) == c
    ensures c.reconnectAttempts < c.maxReconnectAttempts ==>
      && AttemptReconnect(c).reconnectAttempts == c.reconnectAttempts + 1
      && AttemptReconnect(c).reconnectDelays == c.reconnectDelays + [RECONNECT_DELAY * Pow2(c.reconnectAttempts)]
      && AttemptReconnect(c).(reconnectAttempts := c.reconnectAttempts, reconnectDelays := c.reconnectDelays) == c
  {
  }

  /** `onclose` always leaves the heartbeat stopped and unregistered. */
  lemma CloseStopsHeartbeat(c: Client)
    requires Valid(c)
    ensures OnClose(c).pingInterval.None?
    ensures c.pingInterval.Some? ==> c.pingInterval.value !in OnClose(c).liveIntervals
    ensures OnClose(c).liveIntervals <= c.liveIntervals
    ensures OnClose(c).statuses == c.statuses + [StatusDisconnected]
  {
  }

  /** `send` transmits exactly when the socket is open, and changes nothing else. */
  lemma SendOnlyWhenOpen(c: Client, m: ClientMessage)
    ensures Send(c, m).sent == (if c.ws == Some(Open) then c.sent + [m] else c.sent)
    ensures Send(c, m).(sent := c.sent) == c
  {
  }

  /** A run of closes from `a` attempts schedules the remaining backoff delays and then stops. */
  lemma {:induction false} ClosesSchedule(c: Client, k: nat)
    ensures var r := Closes(c, k);
      && r.reconnectAttempts == (if c.reconnectAttempts >= c.maxReconnectAttempts then c.reconnectAttempts
                                 else Min(c.reconnectAttempts + k, c.maxReconnectAttempts))
      && r.maxReconnectAttempts == c.maxReconnectAttempts
      && r.reconnectDelays == c.reconnectDelays + DelaysBetween(c.reconnectAttempts, r.reconnectAttempts)
    decreases k
  {
    if k > 0 {
      var c1 := OnClose(c);
      ClosesSchedule(c1, k - 1);
      if c.reconnectAttempts < c.maxReconnectAttempts {
        var r := Closes(c, k);
        assert DelaysBetween(c.reconnectAttempts, r.reconnectAttempts)
            == [Delay(c.reconnectAttempts + 1)] + DelaysBetween(c1.reconnectAttempts, r.reconnectAttempts);
      } else {
        assert c1.reconnectDelays == c.reconnectDelays;
      }
    }
  }

  /**
   * From a fresh counter, closes without an intervening open schedule at
   * most five reconnects, after 1, 2, 4, 8 and 16 seconds.
   */
  lemma BackoffFromFreshCounter(c: Client, k: nat)
    requires c.reconnectAttempts == 0 && c.maxReconnectAttempts == MAX_RECONNECT_ATTEMPTS
    ensures var r := Closes(c, k);
      && r.reconnectDelays == c.reconnectDelays + [1000, 2000, 4000, 8000, 16000][..Min(k, 5)]
      && |r.reconnectDelays| - |c.reconnectDelays| <= 5
  {
    ClosesSchedule(c, k);
    var all := DelaysBetween(0, 5);
    assert all == [1000, 2000, 4000, 8000, 16000];
    PrefixOfDelays(0, Min(k, 5), 5);
  }

  lemma {:induction false} PrefixOfDelays(a: nat, b: nat, c: nat)
    requires a <= b <= c
    ensures DelaysBetween(a, b) == DelaysBetween(a, c)[..b - a]
    decreases b - a
  {
    if a < b {
      PrefixOfDelays(a + 1, b, c);
    }
  }

  /**
   * After `disconnect` the socket is gone, the heartbeat is stopped and no
   * number of later close events schedules a reconnect.
   */
  lemma {:induction false} NoReconnectAfterDisconnect(c: Client, k: nat)
    ensures Disconnect(c).ws.None? && Disconnect(c).pingInterval.None?
    ensures Disconnect(c).maxReconnectAttempts == 0
    ensures Closes(Disconnect(c), k).reconnectDelays == c.reconnectDelays
  {
    ClosesSchedule(Disconnect(c), k);
  }
}
