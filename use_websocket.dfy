/** The reconnect policy of the `useWebSocket` hook. The socket and the timer are
    abstracted: socket callbacks arrive as events, each `setTimeout(connect,
    reconnectInterval)` call is recorded by its delay in `timers`, and a timer
    running `connect` is the `Reconnect` event. A message whose JSON does not
    parse arrives as `Message(None)`. */
module WebSocketHook {
  import opened Common

  const MaxReconnectAttempts: nat := 5
  /** Milliseconds between a close and the reconnect it schedules. */
  const ReconnectInterval: nat := 5000

  datatype SocketEvent =
    | Open | Message(parsed: Option<string>) | Error | Close
    | /** A pending reconnect timer runs `connect()`. */
      Reconnect

  /** The hook's `data` and `isConnected` state, the `reconnectAttempts` ref, the
      delays of the reconnect timers set so far and how many of them have run,
      and whether `wsRef.current` is a socket that has not closed yet. */
  datatype HookState = HookState(data: Option<string>, isConnected: bool,
                                 reconnectAttempts: nat, timers: seq<nat>,
                                 fired: nat, live: bool)

  /** After the first render and the mount effect's `connect()`: no data, not
      connected, no attempts, no timers, one socket connecting. */
  const Initial: HookState := HookState(None, false, 0, [], 0, true)

  /** One callback. A socket that has closed fires nothing more, so socket
      callbacks act only while `wsRef.current` is live. */
  function Step(s: HookState, e: SocketEvent): HookState {
    match e
    case Open => if s.live then s.(isConnected := true, reconnectAttempts := 0) else s
    case Message(parsed) => if s.live && parsed.Some? then s.(data := parsed) else s
    case Error => if s.live then s.(isConnected := false) else s
    case Close =>
      if !s.live then s
      else if s.reconnectAttempts < MaxReconnectAttempts then
        s.(isConnected := false, live := false, reconnectAttempts := s.reconnectAttempts + 1,
           timers := s.timers + [ReconnectInterval])
      else
        s.(isConnected := false, live := false)
    case Reconnect =>
      if s.fired < |s.timers| then s.(fired := s.fired + 1, live := true) else s
  }

  /** The effect cleanup: `wsRef.current.close()`. Closing a live socket fires
      its `onclose`; closing one that has already closed fires nothing. */
  function Cleanup(s: HookState): HookState {
    if s.live then Step(s, Close) else s
  }

  /** A run of callbacks, in order. */
  function Run(s: HookState, events: seq<SocketEvent>): HookState
    decreases |events|
  {
    if events == [] then s else Run(Step(s, events[0]), events[1..])
  }

  predicate NoOpen(events: seq<SocketEvent>) {
    forall i :: 0 <= i < |events| ==> events[i] != Open
  }

  /** The counter is within its limit and no more timers have run than were set. */
  predicate Bounded(s: HookState) {
    s.reconnectAttempts <= MaxReconnectAttempts && s.fired <= |s.timers|
  }

  // ---------------------------------------------------------------------------
  // One callback at a time

  /** `onopen` marks the hook connected and resets the counter. */
  lemma OpenResets(s: HookState)
    requires s.live
    ensures Step(s, Open).isConnected && Step(s, Open).reconnectAttempts == 0
    ensures Step(s, Open).timers == s.timers && Step(s, Open).data == s.data
  {
  }

  /** A message that parses replaces `data`; one that does not changes nothing. */
  lemma MessageEffect(s: HookState, parsed: Option<string>)
    requires s.live
    ensures parsed.None? ==> Step(s, Message(parsed)) == s
    ensures parsed.Some? ==> Step(s, Message(parsed)) == s.(data := parsed)
  {
  }

  /** `onerror` marks the hook disconnected and leaves the counter alone. */
  lemma ErrorKeepsCounter(s: HookState)
    requires s.live
    ensures !Step(s, Error).isConnected
    ensures Step(s, Error).reconnectAttempts == s.reconnectAttempts && Step(s, Error).timers == s.timers
  {
  }

  /** `onclose` below the limit schedules exactly one reconnect, 5 s out, and
      counts it; at the limit it schedules none. Either way the socket is gone. */
  lemma CloseEffect(s: HookState)
    requires s.live
    ensures !Step(s, Close).isConnected && !Step(s, Close).live
    ensures s.reconnectAttempts < MaxReconnectAttempts ==>
      && Step(s, Close).reconnectAttempts == s.reconnectAttempts + 1
      && Step(s, Close).timers == s.timers + [5000]
    ensures s.reconnectAttempts >= MaxReconnectAttempts ==>
      Step(s, Close).timers == s.timers && Step(s, Close).reconnectAttempts == s.reconnectAttempts
  {
  }

  /** A socket that has closed fires no further callback. */
  lemma ClosedSocketSilent(s: HookState, e: SocketEvent)
    requires !s.live && !e.Reconnect?
    ensures Step(s, e) == s
  {
  }

  /** A pending timer opens a new socket; with none pending nothing happens. */
  lemma ReconnectEffect(s: HookState)
    ensures s.fired < |s.timers| ==>
      Step(s, Reconnect) == s.(fired := s.fired + 1, live := true)
    ensures s.fired >= |s.timers| ==> Step(s, Reconnect) == s
  {
  }

  /** The counter never exceeds the maximum, and timers run only once set. */
  lemma StepKeepsBound(s: HookState, e: SocketEvent)
    requires Bounded(s)
    ensures Bounded(Step(s, e))
  {
  }

  // ---------------------------------------------------------------------------
  // Runs of callbacks

  /** Between two opens, every scheduled reconnect is counted, so at most
      `MaxReconnectAttempts - reconnectAttempts` more are scheduled. */
  lemma {:induction false} RunWithoutOpen(s: HookState, events: seq<SocketEvent>)
    requires s.reconnectAttempts <= MaxReconnectAttempts && NoOpen(events)
    ensures var r := Run(s, events);
      && |s.timers| <= |r.timers|
      && r.reconnectAttempts == s.reconnectAttempts + (|r.timers| - |s.timers|)
      && r.reconnectAttempts <= MaxReconnectAttempts
      && |r.timers| - |s.timers| <= MaxReconnectAttempts - s.reconnectAttempts
    decreases |events|
  {
    if events != [] {
      var s1 := Step(s, events[0]);
      assert NoOpen(events[1..]) by {
        forall i | 0 <= i < |events| - 1 ensures events[1..][i] != Open {
          assert events[1..][i] == events[i + 1];
        }
      }
      RunWithoutOpen(s1, events[1..]);
    }
  }

  /** Five sockets in a row that close before opening schedule five reconnects;
      the sixth socket's close schedules none. */
  lemma FiveClosesExhaust(s: HookState)
    requires s.reconnectAttempts == 0 && s.live && s.fired == |s.timers|
    ensures var r := Run(s, [Close, Reconnect, Close, Reconnect, Close, Reconnect,
                             Close, Reconnect, Close, Reconnect]);
      && r.reconnectAttempts == MaxReconnectAttempts && r.live
      && |r.timers| == |s.timers| + 5
      && Step(r, Close).timers == r.timers && !Step(r, Close).live
  {
    var r := Run(s, [Close, Reconnect, Close, Reconnect, Close, Reconnect,
                     Close, Reconnect, Close, Reconnect]);
    assert r == s.(isConnected := false, reconnectAttempts := 5,
                   timers := s.timers + [5000, 5000, 5000, 5000, 5000],
                   fired := s.fired + 5);
  }

  /** The cleanup cancels no timer: closing a live socket below the limit still
      schedules a reconnect, and that timer later opens a new socket after the
      unmount. */
  lemma TeardownCanSchedule(s: HookState)
    requires s.live && s.reconnectAttempts < MaxReconnectAttempts && s.fired <= |s.timers|
    ensures |Cleanup(s).timers| == |s.timers| + 1 && !Cleanup(s).live
    ensures Step(Cleanup(s), Reconnect).live
  {
  }

  /** Once the socket has closed, the cleanup's `close()` does nothing: a close
      followed by the cleanup schedules exactly one reconnect. */
  lemma TeardownAfterClose(s: HookState)
    requires s.live && s.reconnectAttempts < MaxReconnectAttempts
    ensures Cleanup(Step(s, Close)) == Step(s, Close)
    ensures |Cleanup(Step(s, Close)).timers| == |s.timers| + 1
  {
  }

  // ---------------------------------------------------------------------------
  // The hook's mutable state

  class WebSocketHookState {
    var data: Option<string>
    var isConnected: bool
    /** `reconnectAttempts.current`. */
    var reconnectAttempts: nat
    var timers: seq<nat>
    var fired: nat
    /** `wsRef.current` has not closed. */
    var live: bool

    function Snapshot(): HookState
      reads this
    {
      HookState(data, isConnected, reconnectAttempts, timers, fired, live)
    }

    ghost predicate Valid()
      reads this
    {
      Bounded(Snapshot())
    }

    constructor ()
      ensures Snapshot() == Initial && Valid()
    {
      data := None;
      isConnected := false;
      reconnectAttempts := 0;
      timers := [];
      fired := 0;
      live := true;
    }

    method OnOpen()
      requires Valid()
      modifies this
      ensures Valid() && Snapshot() == Step(old(Snapshot()), Open)
    {
      if live {
        isConnected := true;
        reconnectAttempts := 0;
      }
    }

    method OnMessage(parsed: Option<string>)
      requires Valid()
      modifies this
      ensures Valid() && Snapshot() == Step(old(Snapshot()), Message(parsed))
    {
      if live {
        match parsed {
          case Some(_) => data := parsed;
          case None =>
        }
      }
    }

    method OnError()
      requires Valid()
      modifies this
      ensures Valid() && Snapshot() == Step(old(Snapshot()), Error)
    {
      if live {
        isConnected := false;
      }
    }

    method OnClose()
      requires Valid()
      modifies this
      ensures Valid() && Snapshot() == Step(old(Snapshot()), Close)
    {
      if live {
        isConnected := false;
        live := false;
        if reconnectAttempts < MaxReconnectAttempts {
          reconnectAttempts := reconnectAttempts + 1;
          timers := timers + [ReconnectInterval];
        }
      }
    }

    /** A pending timer runs `connect()`, which puts a new socket in `wsRef`. */
    method OnReconnect()
      requires Valid()
      modifies this
      ensures Valid() && Snapshot() == Step(old(Snapshot()), Reconnect)
    {
      if fired < |timers| {
        fired := fired + 1;
        live := true;
      }
    }

    /** The effect cleanup: `wsRef.current.close()`, which fires `onclose` only
        on a socket that has not closed yet. */
    method Teardown()
      requires Valid()
      modifies this
      ensures Valid() && Snapshot() == Cleanup(old(Snapshot()))
    {
      if live {
        OnClose();
      }
    }
  }
}
