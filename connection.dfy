/**
 * The WebSocket reconnection state machine of the dashboard: the socket
 * handlers, reconnect and updateConnectionStatus, as transitions on the
 * dashboard's connection fields.
 */
module Connection {

  /** The last status passed to updateConnectionStatus. */
  datatype Status = Connecting | Connected | Disconnected

  const MaxReconnectAttempts: nat := 10

  /**
   * The connection fields: the displayed status, `isConnected`,
   * `reconnectAttempts`, the number of 3-second reconnect timers scheduled
   * and not yet fired, and the number scheduled in all.
   */
  datatype Conn = Conn(status: Status, isConnected: bool, attempts: nat, pending: nat, scheduled: nat)

  /** What holds of the connection fields at every step. */
  predicate ConnInv(c: Conn) {
    c.attempts <= MaxReconnectAttempts && (c.isConnected <==> c.status == Connected)
  }

  /** updateConnectionStatus: records the status; `isConnected` is whether it is `'connected'`. */
  function SetStatus(c: Conn, s: Status): (r: Conn)
    ensures r.status == s && (r.isConnected <==> s == Connected)
    ensures r.attempts == c.attempts && r.pending == c.pending && r.scheduled == c.scheduled
  {
    c.(status := s, isConnected := s == Connected)
  }

  /**
   * setupWebSocket: shows `'connecting'` and opens a socket; when the socket
   * constructor throws (`created` false) the status becomes `'disconnected'`.
   */
  function Setup(c: Conn, created: bool): (r: Conn)
    ensures ConnInv(c) ==> ConnInv(r)
    ensures r.status == (if created then Connecting else Disconnected)
    ensures r.attempts == c.attempts && r.pending == c.pending && r.scheduled == c.scheduled
  {
    var connecting := SetStatus(c, Connecting);
    if created then connecting else SetStatus(connecting, Disconnected)
  }

  /** onopen: connected, and the attempt counter goes back to 0. */
  function Opened(c: Conn): (r: Conn)
    ensures ConnInv(r) && r.isConnected && r.attempts == 0
    ensures r.pending == c.pending && r.scheduled == c.scheduled
  {
    SetStatus(c, Connected).(attempts := 0)
  }

  /**
   * reconnect: below the limit, count one more attempt, show `'connecting'`
   * and schedule one timer; at the limit, show `'disconnected'` and schedule nothing.
   */
  function Reconnect(c: Conn): (r: Conn)
    ensures ConnInv(c) ==> ConnInv(r)
    ensures c.attempts < MaxReconnectAttempts ==>
      r.attempts == c.attempts + 1 && r.pending == c.pending + 1 && r.scheduled == c.scheduled + 1
      && r.status == Connecting
    ensures c.attempts >= MaxReconnectAttempts ==>
      r.attempts == c.attempts && r.pending == c.pending && r.scheduled == c.scheduled
      && r.status == Disconnected
  {
    if c.attempts < MaxReconnectAttempts then
      SetStatus(c, Connecting).(attempts := c.attempts + 1, pending := c.pending + 1, scheduled := c.scheduled + 1)
    else
      SetStatus(c, Disconnected)
  }

  /** onclose: show `'disconnected'`, then reconnect. */
  function Closed(c: Conn): (r: Conn)
    ensures ConnInv(c) ==> ConnInv(r)
    ensures c.attempts < MaxReconnectAttempts ==>
      r.status == Connecting && !r.isConnected
      && r.attempts == c.attempts + 1 && r.pending == c.pending + 1 && r.scheduled == c.scheduled + 1
    ensures c.attempts >= MaxReconnectAttempts ==>
      r.status == Disconnected && !r.isConnected
      && r.attempts == c.attempts && r.pending == c.pending && r.scheduled == c.scheduled
  {
    Reconnect(SetStatus(c, Disconnected))
  }

  /** onerror: show `'disconnected'`; no reconnection is attempted. */
  function Errored(c: Conn): (r: Conn)
    ensures ConnInv(c) ==> ConnInv(r)
    ensures r.status == Disconnected && !r.isConnected
    ensures r.attempts == c.attempts && r.pending == c.pending && r.scheduled == c.scheduled
  {
    SetStatus(c, Disconnected)
  }

  /** A reconnect timer fires and runs setupWebSocket; with no timer pending nothing happens. */
  function TimerFired(c: Conn, created: bool): (r: Conn)
    ensures ConnInv(c) ==> ConnInv(r)
    ensures c.pending > 0 ==> r.pending == c.pending - 1
    ensures c.pending > 0 ==> r.status == (if created then Connecting else Disconnected) && !r.isConnected
    ensures c.pending == 0 ==> r == c
    ensures r.attempts == c.attempts && r.scheduled == c.scheduled
  {
    if c.pending > 0 then Setup(c.(pending := c.pending - 1), created) else c
  }

  /** What can happen to the connection after the page has loaded. */
  datatype Event = Open | Close | Error | Fire(created: bool)

  function Step(c: Conn, e: Event): Conn {
    match e
    case Open => Opened(c)
    case Close => Closed(c)
    case Error => Errored(c)
    case Fire(created) => TimerFired(c, created)
  }

  function Run(c: Conn, events: seq<Event>): Conn
    decreases |events|
  {
    if events == [] then c else Run(Step(c, events[0]), events[1..])
  }

  lemma {:induction false} RunKeepsInvariant(c: Conn, events: seq<Event>)
    requires ConnInv(c)
    ensures ConnInv(Run(c, events))
    decreases |events|
  {
    if events != [] {
      RunKeepsInvariant(Step(c, events[0]), events[1..]);
    }
  }

  /**
   * Without a successful open, no run of closes, errors and timer firings
   * schedules more than the remaining retry budget: each timer scheduled
   * spends one attempt, and the counter never passes 10.
   */
  lemma {:induction false} RetriesAreBounded(c: Conn, events: seq<Event>)
    requires ConnInv(c)
    requires forall i :: 0 <= i < |events| ==> !events[i].Open?
    ensures Run(c, events).scheduled - c.scheduled == Run(c, events).attempts - c.attempts
    ensures Run(c, events).scheduled <= c.scheduled + (MaxReconnectAttempts - c.attempts)
    decreases |events|
  {
    if events != [] {
      var next := Step(c, events[0]);
      assert next.scheduled - c.scheduled == next.attempts - c.attempts;
      RetriesAreBounded(next, events[1..]);
    }
  }

  /** Once 10 attempts are spent, a close schedules nothing more and leaves the page disconnected. */
  lemma ExhaustedCloseSchedulesNothing(c: Conn)
    requires c.attempts == MaxReconnectAttempts
    ensures Closed(c).scheduled == c.scheduled && Closed(c).pending == c.pending
    ensures Closed(c).status == Disconnected && !Closed(c).isConnected
  {
  }
}
