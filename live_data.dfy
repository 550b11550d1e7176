/** The browser side of live timing: a reader that prefers the push channel,
    falls back to polling the HTTP endpoint, retries the push channel a bounded
    number of times, and can be told to disconnect. Its mutable references
    (the socket, the polling interval, the reconnect timer and the attempt
    counter) and its visible state are fields of a class; the browser's pending
    timers, active intervals and sockets whose handlers can still fire are
    fields too, so that "at most one timer" can be stated. Each event handler
    is a method proved equal to a function on the whole state, and the
    properties are lemmas about those functions. */
module LiveData {
  import opened JsText
  import U = UdpService

  const MaxReconnectAttempts: nat := 5
  /** The delays of the reconnect timer and the polling interval, in ms. */
  const ReconnectInterval: nat := 3000
  const PollInterval: nat := 5000

  const SocketErrorMessage: string := "Erro de conexão WebSocket"
  const ConnectFailureMessage: string := "Falha ao conectar via WebSocket"
  const PollErrorPrefix: string := "Erro ao buscar dados: "
  const RefreshErrorPrefix: string := "Erro ao fazer refresh: "
  const LiveUpdateType: string := "LIVE_UPDATE"

  /** `connectionStatus`; `Failed` is the 'error' value. */
  datatype Status = Connected | Connecting | Disconnected | Failed

  /** The hook's options. */
  datatype Options = Options(useWebSocket: bool, usePolling: bool, autoStart: bool)

  /** A push-channel message after `JSON.parse`: its `type` and its `data`
      (absent or null as `None`), or a parse failure. */
  datatype Incoming = Parsed(kind: string, data: Option<U.LiveTimingData>) | Unparseable

  /** How a polling request ended. */
  datatype PollResult = Fetched(payload: U.LiveTimingData) | FetchFailed(reason: string)

  /** Everything the reader and the browser hold for it. Handles of sockets,
      timers and intervals are numbers drawn from `nextHandle`. */
  datatype State = State(
    data: Option<U.LiveTimingData>,
    loading: bool,
    error: Option<string>,
    isConnected: bool,
    lastUpdated: Option<string>,
    status: Status,
    ws: Option<nat>,
    pollInterval: Option<nat>,
    reconnectTimeout: Option<nat>,
    attempts: nat,
    sockets: set<nat>,
    timeouts: set<nat>,
    intervals: set<nat>,
    inFlight: nat,
    nextHandle: nat,
    subscribed: seq<nat>)

  /** The state of a freshly mounted reader. */
  const Initial: State :=
    State(None, false, None, false, None, Disconnected, None, None, None, 0, {}, {}, {}, 0, 0, [])

  function HandleSet(h: Option<nat>): set<nat>
  {
    if h.Some? then {h.value} else {}
  }

  /** The reader's invariant: the attempt counter is bounded, every pending
      timer is the one the reference holds, every active interval is the one
      the reference holds, the referenced socket is live, and nothing exists
      for a channel that is switched off. */
  predicate Inv(s: State, o: Options)
  {
    s.attempts <= MaxReconnectAttempts &&
    s.timeouts <= HandleSet(s.reconnectTimeout) &&
    s.intervals <= HandleSet(s.pollInterval) &&
    HandleSet(s.ws) <= s.sockets &&
    (!o.useWebSocket ==> s.sockets == {}) &&
    (!o.usePolling ==> s.pollInterval.None?)
  }

  // ---------------------------------------------------------------------------
  // The handlers as functions on the state

  /** `connectPolling`: clear the previous interval, start one fetch, and set
      up a new interval. */
  function Poll(s: State, o: Options): State
  {
    if !o.usePolling then s
    else
      var h := s.nextHandle;
      s.(intervals := s.intervals - HandleSet(s.pollInterval) + {h}, pollInterval := Some(h),
         loading := true, inFlight := s.inFlight + 1, nextHandle := h + 1)
  }

  /** `connectWebSocket`; `ctorFails` says whether the socket constructor
      throws. */
  function Connect(s: State, o: Options, ctorFails: bool): State
  {
    if !o.useWebSocket || s.ws.Some? then s
    else if ctorFails then Poll(s.(status := Failed, error := Some(ConnectFailureMessage)), o)
    else
      var h := s.nextHandle;
      s.(status := Connecting, ws := Some(h), sockets := s.sockets + {h}, nextHandle := h + 1)
  }

  /** `onopen`: connected, no error, attempts reset, and a SUBSCRIBE send
      attempted on the socket the reference holds. `subscribed` records the
      attempts only: when that socket is a newer one still connecting, the
      browser's `send` throws instead of sending. */
  function Opened(s: State): State
  {
    s.(isConnected := true, status := Connected, error := None, attempts := 0,
       subscribed := s.subscribed + (if s.ws.Some? then [s.ws.value] else []))
  }

  /** `onmessage`. */
  function Received(s: State, m: Incoming, now: string): State
  {
    if m.Parsed? && m.kind == LiveUpdateType && m.data.Some? then
      s.(data := m.data, lastUpdated := Some(now), loading := false)
    else s
  }

  /** `onerror`. */
  function SocketFailed(s: State): State
  {
    s.(status := Failed, error := Some(SocketErrorMessage))
  }

  /** `attemptReconnect`. */
  function Reconnect(s: State): State
  {
    if s.attempts >= MaxReconnectAttempts then s
    else
      var h := s.nextHandle;
      s.(attempts := s.attempts + 1, timeouts := s.timeouts - HandleSet(s.reconnectTimeout) + {h},
         reconnectTimeout := Some(h), nextHandle := h + 1)
  }

  /** `onclose` of socket `h`: disconnected, reference cleared, a reconnect
      attempted and polling started. */
  function Closed(s: State, h: nat, o: Options): State
  {
    var c := s.(isConnected := false, status := Disconnected, ws := None, sockets := s.sockets - {h});
    Poll(Reconnect(c), o)
  }

  /** The reconnect timer `h` fires; the reference keeps its value. */
  function TimerFired(s: State, h: nat, o: Options, ctorFails: bool): State
  {
    Connect(s.(timeouts := s.timeouts - {h}), o, ctorFails)
  }

  /** The polling interval fires: one more fetch starts. */
  function Ticked(s: State): State
  {
    s.(loading := true, inFlight := s.inFlight + 1)
  }

  /** A polling fetch completes. */
  function Answered(s: State, r: PollResult, now: string): State
    requires s.inFlight > 0
  {
    match r
    case Fetched(p) =>
      s.(data := Some(p), lastUpdated := Some(now), loading := false, error := None, isConnected := true,
         status := if s.status == Disconnected || s.status == Failed then Connected else s.status,
         inFlight := s.inFlight - 1)
    case FetchFailed(reason) =>
      s.(loading := false, error := Some(PollErrorPrefix + reason), isConnected := false, status := Failed,
         inFlight := s.inFlight - 1)
  }

  /** `refresh`, request and answer taken as one step: the data or an error,
      and nothing about the connection. */
  function Refreshed(s: State, r: PollResult, now: string): State
  {
    match r
    case Fetched(p) => s.(data := Some(p), lastUpdated := Some(now), error := None, loading := false)
    case FetchFailed(reason) => s.(error := Some(RefreshErrorPrefix + reason), loading := false)
  }

  /** `disconnect`: close the socket (its handlers stay attached), clear the
      interval and the timer, and reset the visible state. */
  function Disconnection(s: State): State
  {
    s.(ws := None,
       intervals := s.intervals - HandleSet(s.pollInterval), pollInterval := None,
       timeouts := s.timeouts - HandleSet(s.reconnectTimeout), reconnectTimeout := None,
       isConnected := false, status := Disconnected, data := None, attempts := 0)
  }

  /** The mount effect: the push channel if enabled, else polling. */
  function Mounted(s: State, o: Options, ctorFails: bool): State
  {
    if !o.autoStart then s
    else if o.useWebSocket then Connect(s, o, ctorFails)
    else Poll(s, o)
  }

  // ---------------------------------------------------------------------------
  // Properties of the handlers

  lemma InitialInv(o: Options)
    ensures Inv(Initial, o)
  {
  }

  /** Polling keeps exactly one interval, the new one, active. */
  lemma PollKeepsOneInterval(s: State, o: Options)
    requires Inv(s, o)
    ensures Inv(Poll(s, o), o)
    ensures o.usePolling ==> Poll(s, o).intervals == {Poll(s, o).pollInterval.value}
    ensures !o.usePolling ==> Poll(s, o) == s
  {
  }

  /** The attempt counter never passes the maximum; at the maximum nothing is
      scheduled; below it exactly one timer, the new one, is pending. */
  lemma ReconnectBounded(s: State, o: Options)
    requires Inv(s, o)
    ensures Inv(Reconnect(s), o)
    ensures s.attempts >= MaxReconnectAttempts ==> Reconnect(s) == s
    ensures s.attempts < MaxReconnectAttempts ==>
      Reconnect(s).attempts == s.attempts + 1 &&
      Reconnect(s).timeouts == {Reconnect(s).reconnectTimeout.value}
  {
  }

  /** Connecting is a no-op with the push channel off or a socket held;
      otherwise the status is 'connecting', or 'error' with polling started
      when the constructor throws. */
  lemma ConnectEffect(s: State, o: Options, ctorFails: bool)
    requires Inv(s, o)
    ensures Inv(Connect(s, o, ctorFails), o)
    ensures !o.useWebSocket || s.ws.Some? ==> Connect(s, o, ctorFails) == s
    ensures o.useWebSocket && s.ws.None? ==>
      var c := Connect(s, o, ctorFails);
      if ctorFails then c.status == Failed && c.error == Some(ConnectFailureMessage) && c.ws.None? &&
        c == Poll(s.(status := Failed, error := Some(ConnectFailureMessage)), o)
      else c.status == Connecting && c.ws == Some(s.nextHandle) && c.sockets == s.sockets + {s.nextHandle}
  {
    if o.useWebSocket && s.ws.None? && ctorFails {
      PollKeepsOneInterval(s.(status := Failed, error := Some(ConnectFailureMessage)), o);
    }
  }

  /** `onopen` resets the counter and reports the connection. */
  lemma OpenedEffect(s: State, o: Options)
    requires Inv(s, o)
    ensures var r := Opened(s);
      Inv(r, o) && r.isConnected && r.status == Connected && r.error.None? && r.attempts == 0
  {
  }

  /** Only a LIVE_UPDATE message with data changes anything. */
  lemma ReceivedEffect(s: State, m: Incoming, now: string)
    ensures var r := Received(s, m, now);
      (r != s ==> m.Parsed? && m.kind == LiveUpdateType && m.data.Some?) &&
      (m.Parsed? && m.kind == LiveUpdateType && m.data.Some? ==> r.data == m.data && !r.loading)
  {
  }

  /** `onclose` reports the disconnection, frees the reference, and then both
      retries (while attempts remain) and falls back to polling (if enabled). */
  lemma ClosedEffect(s: State, h: nat, o: Options)
    requires Inv(s, o) && h in s.sockets
    ensures var r := Closed(s, h, o);
      Inv(r, o) && !r.isConnected && r.status == Disconnected && r.ws.None? && h !in r.sockets &&
      (s.attempts < MaxReconnectAttempts ==> r.timeouts == {r.reconnectTimeout.value}) &&
      (s.attempts >= MaxReconnectAttempts ==> r.timeouts == s.timeouts) &&
      r.attempts == (if s.attempts < MaxReconnectAttempts then s.attempts + 1 else s.attempts) &&
      (o.usePolling <==> r.intervals != {})
  {
    var c := s.(isConnected := false, status := Disconnected, ws := None, sockets := s.sockets - {h});
    assert Inv(c, o);
    ReconnectBounded(c, o);
    PollKeepsOneInterval(Reconnect(c), o);
  }

  /** A timer firing leaves at most one pending timer and connects again. */
  lemma TimerFiredKeepsInv(s: State, h: nat, o: Options, ctorFails: bool)
    requires Inv(s, o)
    ensures Inv(TimerFired(s, h, o, ctorFails), o)
  {
    ConnectEffect(s.(timeouts := s.timeouts - {h}), o, ctorFails);
  }

  /** A polling answer reports the connection state the fetch found. */
  lemma AnsweredEffect(s: State, r: PollResult, now: string, o: Options)
    requires Inv(s, o) && s.inFlight > 0
    ensures var a := Answered(s, r, now);
      Inv(a, o) && !a.loading && a.inFlight == s.inFlight - 1 &&
      (r.Fetched? ==> a.isConnected && a.data == Some(r.payload) && a.error.None? && a.status != Disconnected && a.status != Failed) &&
      (r.FetchFailed? ==> !a.isConnected && a.status == Failed && a.data == s.data)
  {
  }

  /** A manual refresh changes the data or the error and never the
      connection: status, flag, references and browser resources stay. */
  lemma RefreshLeavesConnection(s: State, r: PollResult, now: string, o: Options)
    requires Inv(s, o)
    ensures var f := Refreshed(s, r, now);
      Inv(f, o) && !f.loading &&
      f.status == s.status && f.isConnected == s.isConnected && f.ws == s.ws &&
      f.pollInterval == s.pollInterval && f.reconnectTimeout == s.reconnectTimeout && f.attempts == s.attempts &&
      f.sockets == s.sockets && f.timeouts == s.timeouts && f.intervals == s.intervals &&
      (r.Fetched? ==> f.data == Some(r.payload) && f.error.None?) &&
      (r.FetchFailed? ==> f.data == s.data && f.error == Some(RefreshErrorPrefix + r.reason))
  {
  }

  /** What every disconnect leaves behind, whatever the state before. */
  predicate Settled(s: State)
  {
    s.ws.None? && s.pollInterval.None? && s.reconnectTimeout.None? && s.attempts == 0 &&
    s.status == Disconnected && s.data.None? && !s.isConnected &&
    s.timeouts == {} && s.intervals == {}
  }

  /** Disconnect settles the reader from any state and is idempotent. */
  lemma DisconnectSettles(s: State, o: Options)
    requires Inv(s, o)
    ensures Inv(Disconnection(s), o) && Settled(Disconnection(s))
    ensures Disconnection(Disconnection(s)) == Disconnection(s)
  {
  }

  // ---------------------------------------------------------------------------
  // Every event keeps the invariant

  /** The events the reader reacts to. */
  datatype Event =
    | ConnectCall(ctorFails: bool)
    | PollCall
    | ReconnectCall
    | Open(socket: nat)
    | Message(socket: nat, m: Incoming, now: string)
    | SocketError(socket: nat)
    | Close(socket: nat)
    | TimerFires(timer: nat, ctorFails: bool)
    | IntervalFires(interval: nat)
    | FetchDone(result: PollResult, now: string)
    | RefreshCall(result: PollResult, now: string)
    | DisconnectCall
    | MountCall(ctorFails: bool)

  /** An event can happen: socket events need a live socket, timer and interval
      events a pending timer or an active interval, and an answer a request in
      flight. */
  predicate Enabled(s: State, e: Event)
  {
    match e
    case Open(h) => h in s.sockets
    case Message(h, _, _) => h in s.sockets
    case SocketError(h) => h in s.sockets
    case Close(h) => h in s.sockets
    case TimerFires(h, _) => h in s.timeouts
    case IntervalFires(h) => h in s.intervals
    case FetchDone(_, _) => s.inFlight > 0
    case _ => true
  }

  function Step(s: State, o: Options, e: Event): State
    requires Enabled(s, e)
  {
    match e
    case ConnectCall(f) => Connect(s, o, f)
    case PollCall => Poll(s, o)
    case ReconnectCall => Reconnect(s)
    case Open(_) => Opened(s)
    case Message(_, m, now) => Received(s, m, now)
    case SocketError(_) => SocketFailed(s)
    case Close(h) => Closed(s, h, o)
    case TimerFires(h, f) => TimerFired(s, h, o, f)
    case IntervalFires(_) => Ticked(s)
    case FetchDone(r, now) => Answered(s, r, now)
    case RefreshCall(r, now) => Refreshed(s, r, now)
    case DisconnectCall => Disconnection(s)
    case MountCall(f) => Mounted(s, o, f)
  }

  lemma StepKeepsInv(s: State, o: Options, e: Event)
    requires Inv(s, o) && Enabled(s, e)
    ensures Inv(Step(s, o, e), o)
  {
    match e
    case ConnectCall(f) => ConnectEffect(s, o, f);
    case PollCall => PollKeepsOneInterval(s, o);
    case ReconnectCall => ReconnectBounded(s, o);
    case Close(h) => ClosedEffect(s, h, o);
    case TimerFires(h, f) => TimerFiredKeepsInv(s, h, o, f);
    case MountCall(f) =>
      ConnectEffect(s, o, f);
      PollKeepsOneInterval(s, o);
    case _ =>
  }

  /** Any run of enabled events from the mounted state keeps the invariant. */
  function Run(s: State, o: Options, es: seq<Event>): Option<State>
    decreases |es|
  {
    if es == [] then Some(s)
    else if Enabled(s, es[0]) then Run(Step(s, o, es[0]), o, es[1..])
    else None
  }

  lemma {:induction false} RunKeepsInv(s: State, o: Options, es: seq<Event>)
    requires Inv(s, o)
    ensures Run(s, o, es).Some? ==> Inv(Run(s, o, es).value, o)
    decreases |es|
  {
    if es != [] && Enabled(s, es[0]) {
      StepKeepsInv(s, o, es[0]);
      RunKeepsInv(Step(s, o, es[0]), o, es[1..]);
    }
  }

  // ---------------------------------------------------------------------------
  // Disconnect leaves the close handler attached

  /** After a disconnect, the close event of the socket it closed still runs
      `onclose`, which schedules a reconnect and, with polling enabled, starts
      an interval again. */
  lemma CloseAfterDisconnectRestarts(s: State, o: Options)
    requires Inv(s, o) && s.ws.Some?
    ensures var d := Disconnection(s);
      s.ws.value in d.sockets &&
      var r := Closed(d, s.ws.value, o);
      r.reconnectTimeout.Some? && r.timeouts != {} && r.attempts == 1 &&
      (o.usePolling ==> r.intervals != {})
  {
    DisconnectSettles(s, o);
    ClosedEffect(Disconnection(s), s.ws.value, o);
  }

  /** `disconnect` with the socket's handlers detached before it is closed. */
  function DisconnectDetached(s: State): State
  {
    Disconnection(s).(sockets := s.sockets - HandleSet(s.ws))
  }

  /** The invariant of a reader whose disconnect detaches: besides Inv, the only
      live socket is the referenced one. */
  predicate DetachedInv(s: State, o: Options)
  {
    Inv(s, o) && s.sockets <= HandleSet(s.ws)
  }

  /** The step function with the detaching disconnect. */
  function DetachedStep(s: State, o: Options, e: Event): State
    requires Enabled(s, e)
  {
    if e.DisconnectCall? then DisconnectDetached(s) else Step(s, o, e)
  }

  /** With the detaching disconnect, every event keeps DetachedInv. */
  lemma DetachedStepKeepsInv(s: State, o: Options, e: Event)
    requires DetachedInv(s, o) && Enabled(s, e)
    ensures DetachedInv(DetachedStep(s, o, e), o)
  {
    StepKeepsInv(s, o, e);
    match e
    case ConnectCall(f) =>
    case TimerFires(h, f) =>
    case MountCall(f) =>
    case Close(h) =>
      ClosedEffect(s, h, o);
      assert Closed(s, h, o).sockets == s.sockets - {h};
    case _ =>
  }

  /** After the detaching disconnect nothing can happen on its own: no live
      socket, no pending timer, no active interval. */
  lemma DetachedDisconnectIsQuiet(s: State, o: Options)
    requires DetachedInv(s, o)
    ensures var d := DisconnectDetached(s);
      DetachedInv(d, o) && Settled(d) && d.sockets == {}
    ensures forall h :: !Enabled(DisconnectDetached(s), Close(h)) && !Enabled(DisconnectDetached(s), TimerFires(h, false))
  {
    DisconnectSettles(s, o);
  }

  /** The mount effect re-runs whenever `connectionStatus` changes, since the
      polling callback it depends on depends on that status: the cleanup
      disconnects and the effect connects again. The close event of the socket
      the cleanup closed arrives afterwards and clears the reference to the new
      socket, which stays live with nothing pointing at it. */
  lemma EffectRerunOrphansNewSocket(s: State, o: Options)
    requires Inv(s, o) && o.autoStart && o.useWebSocket
    requires s.ws.Some? && s.ws.value < s.nextHandle
    ensures var r := Mounted(Disconnection(s), o, false);
      var stale := s.ws.value;
      r.ws == Some(s.nextHandle) && Enabled(r, Close(stale)) &&
      Closed(r, stale, o).ws.None? && s.nextHandle in Closed(r, stale, o).sockets
  {
  }

  /** A server broadcast, as the reader receives it. The JSON text in between
      is not modelled: this stands for `JSON.parse` of the `JSON.stringify` the
      service sends, so the two modules meet here and nowhere else. */
  function Decode(m: U.ServerMessage): Incoming
  {
    Parsed(LiveUpdateType, Some(m.data))
  }

  /** Glue between the service and the reader: the snapshot a broadcast
      carries becomes the reader's data. */
  lemma BroadcastReachesReader(s: State, m: U.ServerMessage, now: string)
    ensures Received(s, Decode(m), now).data == Some(m.data)
  {
  }

  // ---------------------------------------------------------------------------
  // The reader

  /** The hook's six state values. React applies the setter calls made by one
      handler together, so each handler replaces this record once. */
  datatype View = View(
    data: Option<U.LiveTimingData>,
    loading: bool,
    error: Option<string>,
    isConnected: bool,
    lastUpdated: Option<string>,
    status: Status)

  /** What the browser holds on the reader's behalf: live sockets, pending
      timers, active intervals, requests in flight, the next free handle, and
      the sockets a subscription was sent on. */
  datatype Browser = Browser(
    sockets: set<nat>,
    timeouts: set<nat>,
    intervals: set<nat>,
    inFlight: nat,
    nextHandle: nat,
    subscribed: seq<nat>)

  class LiveDataReader {
    const options: Options
    var view: View
    /** The three references and the attempt counter. */
    var ws: Option<nat>
    var pollInterval: Option<nat>
    var reconnectTimeout: Option<nat>
    var attempts: nat
    var browser: Browser

    ghost function Current(): State
      reads this
    {
      State(view.data, view.loading, view.error, view.isConnected, view.lastUpdated, view.status,
            ws, pollInterval, reconnectTimeout, attempts,
            browser.sockets, browser.timeouts, browser.intervals, browser.inFlight, browser.nextHandle,
            browser.subscribed)
    }

    ghost predicate Valid()
      reads this
    {
      Inv(Current(), options)
    }

    constructor (options: Options)
      ensures this.options == options && Current() == Initial && Valid()
    {
      this.options := options;
      view := View(None, false, None, false, None, Disconnected);
      ws := None;
      pollInterval := None;
      reconnectTimeout := None;
      attempts := 0;
      browser := Browser({}, {}, {}, 0, 0, []);
    }

    method ConnectPolling()
      requires Valid()
      modifies this
      ensures Current() == Poll(old(Current()), options) && Valid()
    {
      PollKeepsOneInterval(Current(), options);
      if !options.usePolling {
        return;
      }
      var h := browser.nextHandle;
      view := view.(loading := true);
      browser := browser.(intervals := browser.intervals - HandleSet(pollInterval) + {h},
                          inFlight := browser.inFlight + 1, nextHandle := h + 1);
      pollInterval := Some(h);
    }

    method ConnectWebSocket(ctorFails: bool)
      requires Valid()
      modifies this
      ensures Current() == Connect(old(Current()), options, ctorFails) && Valid()
    {
      ConnectEffect(Current(), options, ctorFails);
      if !options.useWebSocket || ws.Some? {
        return;
      }
      if ctorFails {
        view := view.(status := Failed, error := Some(ConnectFailureMessage));
        ConnectPolling();
      } else {
        var h := browser.nextHandle;
        view := view.(status := Connecting);
        browser := browser.(sockets := browser.sockets + {h}, nextHandle := h + 1);
        ws := Some(h);
      }
    }

    /** `onopen` of socket `h`; the SUBSCRIBE send is recorded as attempted
        on whichever socket `wsRef` holds. */
    method OnOpen(h: nat)
      requires Valid() && h in browser.sockets
      modifies this
      ensures Current() == Opened(old(Current())) && Valid()
    {
      view := view.(isConnected := true, status := Connected, error := None);
      attempts := 0;
      if ws.Some? {
        browser := browser.(subscribed := browser.subscribed + [ws.value]);
      }
    }

    method OnMessage(h: nat, m: Incoming, now: string)
      requires Valid() && h in browser.sockets
      modifies this
      ensures Current() == Received(old(Current()), m, now) && Valid()
    {
      if m.Parsed? && m.kind == LiveUpdateType && m.data.Some? {
        view := view.(data := m.data, lastUpdated := Some(now), loading := false);
      }
    }

    method OnError(h: nat)
      requires Valid() && h in browser.sockets
      modifies this
      ensures Current() == SocketFailed(old(Current())) && Valid()
    {
      view := view.(status := Failed, error := Some(SocketErrorMessage));
    }

    method AttemptReconnect()
      requires Valid()
      modifies this
      ensures Current() == Reconnect(old(Current())) && Valid()
    {
      ReconnectBounded(Current(), options);
      if attempts >= MaxReconnectAttempts {
        return;
      }
      attempts := attempts + 1;
      var h := browser.nextHandle;
      browser := browser.(timeouts := browser.timeouts - HandleSet(reconnectTimeout) + {h}, nextHandle := h + 1);
      reconnectTimeout := Some(h);
    }

    method OnClose(h: nat)
      requires Valid() && h in browser.sockets
      modifies this
      ensures Current() == Closed(old(Current()), h, options) && Valid()
    {
      ClosedEffect(Current(), h, options);
      browser := browser.(sockets := browser.sockets - {h});
      view := view.(isConnected := false, status := Disconnected);
      ws := None;
      AttemptReconnect();
      ConnectPolling();
    }

    method OnTimer(h: nat, ctorFails: bool)
      requires Valid() && h in browser.timeouts
      modifies this
      ensures Current() == TimerFired(old(Current()), h, options, ctorFails) && Valid()
    {
      browser := browser.(timeouts := browser.timeouts - {h});
      ConnectWebSocket(ctorFails);
    }

    method OnInterval(h: nat)
      requires Valid() && h in browser.intervals
      modifies this
      ensures Current() == Ticked(old(Current())) && Valid()
    {
      view := view.(loading := true);
      browser := browser.(inFlight := browser.inFlight + 1);
    }

    method OnPollAnswer(r: PollResult, now: string)
      requires Valid() && browser.inFlight > 0
      modifies this
      ensures Current() == Answered(old(Current()), r, now) && Valid()
    {
      browser := browser.(inFlight := browser.inFlight - 1);
      match r
      case Fetched(p) =>
        view := view.(data := Some(p), lastUpdated := Some(now), loading := false, error := None, isConnected := true,
                      status := if view.status == Disconnected || view.status == Failed then Connected else view.status);
      case FetchFailed(reason) =>
        view := view.(loading := false, error := Some(PollErrorPrefix + reason), isConnected := false, status := Failed);
    }

    method Refresh(r: PollResult, now: string)
      requires Valid()
      modifies this
      ensures Current() == Refreshed(old(Current()), r, now) && Valid()
    {
      match r
      case Fetched(p) =>
        view := view.(data := Some(p), lastUpdated := Some(now), error := None, loading := false);
      case FetchFailed(reason) =>
        view := view.(error := Some(RefreshErrorPrefix + reason), loading := false);
    }

    method Disconnect()
      requires Valid()
      modifies this
      ensures Current() == Disconnection(old(Current())) && Valid() && Settled(Current())
    {
      DisconnectSettles(Current(), options);
      ws := None;
      browser := browser.(intervals := browser.intervals - HandleSet(pollInterval),
                          timeouts := browser.timeouts - HandleSet(reconnectTimeout));
      pollInterval := None;
      reconnectTimeout := None;
      view := view.(isConnected := false, status := Disconnected, data := None);
      attempts := 0;
    }

    /** `disconnect` with the socket's handlers detached first. */
    method DisconnectAndDetach()
      requires Valid() && browser.sockets <= HandleSet(ws)
      modifies this
      ensures Current() == DisconnectDetached(old(Current())) && Valid() && Settled(Current())
      ensures browser.sockets == {}
    {
      DetachedDisconnectIsQuiet(Current(), options);
      browser := browser.(sockets := browser.sockets - HandleSet(ws),
                          intervals := browser.intervals - HandleSet(pollInterval),
                          timeouts := browser.timeouts - HandleSet(reconnectTimeout));
      ws := None;
      pollInterval := None;
      reconnectTimeout := None;
      view := view.(isConnected := false, status := Disconnected, data := None);
      attempts := 0;
    }

    method Mount(ctorFails: bool)
      requires Valid()
      modifies this
      ensures Current() == Mounted(old(Current()), options, ctorFails) && Valid()
    {
      if !options.autoStart {
        return;
      }
      if options.useWebSocket {
        ConnectWebSocket(ctorFails);
      } else {
        ConnectPolling();
      }
    }
  }
}
