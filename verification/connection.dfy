/**
  The page's connection handling: the socket handlers (open, error, close),
  the send gate on position samples, and the reconnect loop. The handlers are
  modelled first as the page writes them; the `Session` layer below adds what
  the browser guarantees about when a socket fires each event.
 */
module Connection {

  import opened Options
  import opened Floats
  import opened Ui

  /**
    A socket's `readyState`, without `Closing`. The page itself reaches
    `Closing` only on teardown, which is not modelled, and the server drops a
    connection without a closing handshake. A peer or proxy that starts the
    closing handshake would put the socket in `Closing` while `isConnected` is
    still true and the send gate already refuses; `Inv` and `SendIffConnected`
    describe this model, not every browser run.
   */
  datatype ReadyState = Connecting | Open | Closed

  const ReconnectDelayMs := 3000

  /** The part of the page's state the handlers read and write. */
  datatype Page = Page(userId: string, deviceType: string, socket: Option<ReadyState>, isConnected: bool)

  datatype Reaction = Reaction(page: Page, effects: seq<Effect>)

  /** Opening a new socket replaces the page's socket; the flag is left alone. */
  function ConnectWebSocket(p: Page): (r: Page)
    ensures r.socket == Some(Connecting)
    ensures r.isConnected == p.isConnected && r.userId == p.userId && r.deviceType == p.deviceType
  {
    p.(socket := Some(Connecting))
  }

  /** Every open marks the page connected and starts tracking, first connection or not. */
  function OnOpen(p: Page): (r: Reaction)
    ensures r.page == p.(isConnected := true)
    ensures Count(r.effects, IsReconnect) == 0
    ensures StartTracking in r.effects
  {
    Reaction(p.(isConnected := true), [Notify("Connected to server", Success), StartTracking])
  }

  /** An error only changes the status badge. */
  function OnError(p: Page): (r: Reaction)
    ensures r.page == p && r.effects == []
  {
    Reaction(p, [])
  }

  /** Every close marks the page disconnected and schedules exactly one reconnect. */
  function OnClose(p: Page): (r: Reaction)
    ensures r.page == p.(isConnected := false)
    ensures Count(r.effects, IsReconnect) == 1
    ensures ScheduleReconnect(ReconnectDelayMs) in r.effects
  {
    var effects := [Notify("Connection lost. Retrying...", Error), ScheduleReconnect(ReconnectDelayMs)];
    assert effects[..1] == [Notify("Connection lost. Retrying...", Error)];
    assert Count(effects[..1], IsReconnect) == 0 by {
      assert effects[..1][..0] == [];
    }
    Reaction(p.(isConnected := false), effects)
  }

  /** A position sample is sent only over a socket that is open, never queued or retried. */
  function OnPosition(p: Page, lat: Float, lng: Float): (r: Reaction)
    ensures r.page == p
    ensures p.socket == Some(Open) ==> r.effects == [Send(Outbound(p.userId, lat, lng, p.deviceType))]
    ensures p.socket != Some(Open) ==> r.effects == []
  {
    if p.socket.Some? && p.socket.value == Open then
      Reaction(p, [Send(Outbound(p.userId, lat, lng, p.deviceType))])
    else Reaction(p, [])
  }

  /** The page together with the reconnect timers it has scheduled and not yet seen fire. */
  datatype Session = Session(page: Page, pendingReconnects: nat)

  datatype SessionStep = SessionStep(session: Session, effects: seq<Effect>)

  function NewSession(userId: string, deviceType: string): Session {
    Session(Page(userId, deviceType, None, false), 0)
  }

  datatype BrowserEvent =
    | Loaded
    | SocketOpened
    | SocketErrored
    | SocketClosed
    | ReconnectTimer
    | Position(lat: Float, lng: Float)

  predicate Live(p: Page) {
    p.socket == Some(Connecting) || p.socket == Some(Open)
  }

  /**
    One browser event. A socket opens only from `Connecting` and closes once,
    from `Connecting` or `Open`; a timer fires only if one is pending. Events
    the browser cannot deliver in the current state change nothing.
   */
  function Deliver(s: Session, e: BrowserEvent): (r: SessionStep)
    ensures e.Loaded? && s.page.socket == None ==>
      r == SessionStep(s.(page := s.page.(socket := Some(Connecting))), [])
    ensures e.SocketOpened? && s.page.socket == Some(Connecting) ==>
      && r.session == s.(page := s.page.(socket := Some(Open), isConnected := true))
      && StartTracking in r.effects
    ensures e.SocketClosed? && Live(s.page) ==>
      && r.session == Session(s.page.(socket := Some(Closed), isConnected := false), s.pendingReconnects + 1)
      && Count(r.effects, IsReconnect) == 1
    ensures e.ReconnectTimer? && s.pendingReconnects > 0 ==>
      r == SessionStep(Session(s.page.(socket := Some(Connecting)), s.pendingReconnects - 1), [])
    ensures e.Position? ==> r.session == s
    ensures e.Position? && s.page.socket == Some(Open) ==>
      r.effects == [Send(Outbound(s.page.userId, e.lat, e.lng, s.page.deviceType))]
    ensures e.Position? && s.page.socket != Some(Open) ==> r.effects == []
    ensures e.SocketErrored? ==> r == SessionStep(s, [])
    ensures (e.Loaded? && s.page.socket != None)
         || (e.SocketOpened? && s.page.socket != Some(Connecting))
         || (e.SocketClosed? && !Live(s.page))
         || (e.ReconnectTimer? && s.pendingReconnects == 0)
         ==> r == SessionStep(s, [])
  {
    var p := s.page;
    match e
    case Loaded =>
      if p.socket == None then SessionStep(s.(page := ConnectWebSocket(p)), [])
      else SessionStep(s, [])
    case SocketOpened =>
      if p.socket == Some(Connecting) then
        var r := OnOpen(p.(socket := Some(Open)));
        SessionStep(s.(page := r.page), r.effects)
      else SessionStep(s, [])
    case SocketErrored =>
      var r := OnError(p);
      SessionStep(s.(page := r.page), r.effects)
    case SocketClosed =>
      if Live(p) then
        var r := OnClose(p.(socket := Some(Closed)));
        SessionStep(Session(r.page, s.pendingReconnects + 1), r.effects)
      else SessionStep(s, [])
    case ReconnectTimer =>
      if s.pendingReconnects > 0 then
        SessionStep(Session(ConnectWebSocket(p), s.pendingReconnects - 1), [])
      else SessionStep(s, [])
    case Position(lat, lng) =>
      var r := OnPosition(p, lat, lng);
      SessionStep(s.(page := r.page), r.effects)
  }

  /**
    Between events: the flag tells the truth about the socket, and a reconnect
    is pending exactly while the socket is closed, never more than one.
   */
  predicate Inv(s: Session) {
    && (s.page.isConnected <==> s.page.socket == Some(Open))
    && s.pendingReconnects <= 1
    && (s.pendingReconnects == 1 <==> s.page.socket == Some(Closed))
  }

  lemma NewSessionInv(userId: string, deviceType: string)
    ensures Inv(NewSession(userId, deviceType))
  {
  }

  lemma DeliverPreservesInv(s: Session, e: BrowserEvent)
    requires Inv(s)
    ensures Inv(Deliver(s, e).session)
  {
  }

  function RunSession(s: Session, events: seq<BrowserEvent>): SessionStep
    decreases |events|
  {
    if |events| == 0 then SessionStep(s, [])
    else
      var first := Deliver(s, events[0]);
      var rest := RunSession(first.session, events[1..]);
      SessionStep(rest.session, first.effects + rest.effects)
  }

  /** After any sequence of browser events the invariant still holds. */
  lemma {:induction false} RunSessionPreservesInv(s: Session, events: seq<BrowserEvent>)
    requires Inv(s)
    ensures Inv(RunSession(s, events).session)
    decreases |events|
  {
    if |events| > 0 {
      DeliverPreservesInv(s, events[0]);
      RunSessionPreservesInv(Deliver(s, events[0]).session, events[1..]);
    }
  }

  /** A sample is sent exactly when the page believes it is connected. */
  lemma SendIffConnected(s: Session, lat: Float, lng: Float)
    requires Inv(s)
    ensures Deliver(s, Position(lat, lng)).effects != [] <==> s.page.isConnected
  {
  }

  /** Each close of a live socket schedules one reconnect and leaves exactly one outstanding. */
  lemma CloseSchedulesOneReconnect(s: Session)
    requires Inv(s) && Live(s.page)
    ensures Count(Deliver(s, SocketClosed).effects, IsReconnect) == 1
    ensures Deliver(s, SocketClosed).session.pendingReconnects == 1
    ensures !Deliver(s, SocketClosed).session.page.isConnected
  {
  }

  /** Reconnects start tracking again: every open, not only the first, emits `StartTracking`. */
  lemma EveryOpenStartsTracking(s: Session)
    requires s.page.socket == Some(Connecting)
    ensures Deliver(s, SocketOpened).effects == [Notify("Connected to server", Success), StartTracking]
    ensures Deliver(s, SocketOpened).session.page.isConnected
  {
  }

  /**
    The reconnect loop never gives up: a closed socket followed by its timer
    yields a new socket in `Connecting`, which may open again.
   */
  lemma CloseThenTimerReconnects(s: Session)
    requires Inv(s) && Live(s.page)
    ensures var closed := Deliver(s, SocketClosed).session;
      Deliver(closed, ReconnectTimer).session.page.socket == Some(Connecting)
      && Deliver(closed, ReconnectTimer).session.pendingReconnects == 0
  {
  }
}
