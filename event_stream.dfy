/**
 * The live-order event client (`useSSE`): a server-sent-events consumer
 * (section 9.2 of the WHATWG HTML Living Standard) that keeps one stream
 * to `<base>/api/admin/events` open while the dashboard is mounted,
 * forwards five event tags to the handlers it was given, and after a
 * transport error closes the stream, reports the error and reconnects
 * once, 5000 ms later.
 *
 * The browser drives it through callbacks, one method each on
 * `LiveOrderClient`. The effects it causes (opening and closing the
 * stream, calling handlers, logging, setting and clearing the timer) are
 * recorded in order in a trace. `Step` is the same machine as a function
 * of the state, and the lemmas about `Step` and `Run` state what the
 * client promises over any sequence of callbacks.
 */
module EventStream {
  import opened Js
  import Api

  const EventsPath := "/api/admin/events"
  const ReconnectDelayMs := 5000
  const ConnectionErrorMessage := "SSE connection error"

  /** Which of the optional handlers the consumer supplied. */
  datatype Handlers = Handlers(
    onNewOrder: bool,
    onOrderCompleted: bool,
    onStockUpdated: bool,
    onPriceUpdated: bool,
    onConnected: bool,
    onError: bool)

  /** A handler call, with the value it receives. */
  datatype Callback =
    | Connected
    | NewOrder(order: Json)
    | OrderCompleted(info: Json)
    | StockUpdated(info: Json)
    | PriceUpdated(info: Json)
    | Error(message: string)

  datatype Effect =
    | OpenStream(url: string, withCredentials: bool)
    | CloseStream
    | Invoke(callback: Callback)
    | LogParseFailure(tag: string)
    | ScheduleReconnect(delayMs: int)
    | CancelReconnect

  /**
   * `mounted`: the effect has run and not been cleaned up; `sourceOpen`:
   * the current EventSource is open; `timerPending`: a reconnect is
   * scheduled and has not fired; `isConnected`: the hook's state.
   */
  datatype State = State(mounted: bool, sourceOpen: bool, timerPending: bool, isConnected: bool)

  /** What the browser can deliver. */
  datatype Input =
    | Mount
    | Event(tag: string, payload: string)
    | TransportError
    | TimerFire
    | Unmount

  const Initial := State(false, false, false, false)

  /**
   * While mounted, exactly one of "stream open" and "reconnect pending";
   * after cleanup, neither; and a pending reconnect means not connected.
   */
  predicate Inv(s: State)
  {
    && (s.mounted ==> s.sourceOpen != s.timerPending)
    && (!s.mounted ==> !s.sourceOpen && !s.timerPending)
    && (s.timerPending ==> !s.isConnected)
  }

  predicate IsDataTag(tag: string)
  {
    tag == "new_order" || tag == "order_completed" || tag == "stock_updated" || tag == "price_updated"
  }

  /** The handler call a decoded payload of a data tag turns into. */
  function DataCallback(tag: string, v: Json): Callback
    requires IsDataTag(tag)
  {
    if tag == "new_order" then NewOrder(v)
    else if tag == "order_completed" then OrderCompleted(v)
    else if tag == "stock_updated" then StockUpdated(v)
    else PriceUpdated(v)
  }

  /** Whether the consumer supplied the handler a call goes to. */
  predicate Registered(h: Handlers, c: Callback)
  {
    match c
    case Connected => h.onConnected
    case NewOrder(_) => h.onNewOrder
    case OrderCompleted(_) => h.onOrderCompleted
    case StockUpdated(_) => h.onStockUpdated
    case PriceUpdated(_) => h.onPriceUpdated
    case Error(_) => h.onError
  }

  /** `handlers.x?.(...)`: a call to an absent handler does nothing. */
  function Call(h: Handlers, c: Callback): seq<Effect>
  {
    if Registered(h, c) then [Invoke(c)] else []
  }

  /**
   * The `onerror` handler on an open stream: disconnected, the stream
   * closed, `onError` called, and one reconnect scheduled.
   */
  function OnErrorHandler(h: Handlers, s: State): (r: (State, seq<Effect>))
    ensures r.0.mounted == s.mounted && !r.0.isConnected && !r.0.sourceOpen && r.0.timerPending
    ensures |r.1| == (if Registered(h, Error(ConnectionErrorMessage)) then 3 else 2)
    ensures r.1[0] == CloseStream && r.1[|r.1| - 1] == ScheduleReconnect(ReconnectDelayMs)
  {
    (s.(isConnected := false, sourceOpen := false, timerPending := true),
     [CloseStream] + Call(h, Error(ConnectionErrorMessage)) + [ScheduleReconnect(ReconnectDelayMs)])
  }

  /**
   * The listeners registered on the stream: what one event on the open
   * stream does. A frame whose event type is `error` is dispatched as an
   * `error` event (section 9.2.6 of the WHATWG HTML Living Standard), so
   * it runs `onerror` like a transport failure.
   */
  function Dispatch(h: Handlers, decode: string -> Option<Json>, s: State, tag: string, payload: string): (r: (State, seq<Effect>))
    ensures r.0.mounted == s.mounted
    ensures tag != "error" ==> r.0.sourceOpen == s.sourceOpen && r.0.timerPending == s.timerPending
    ensures tag == "error" ==> !r.0.sourceOpen && r.0.timerPending && !r.0.isConnected
  {
    if tag == "connected" then
      (s.(isConnected := true), Call(h, Connected))
    else if IsDataTag(tag) then
      match decode(payload)
      case None => (s, [LogParseFailure(tag)])
      case Some(v) => (s, Call(h, DataCallback(tag, v)))
    else if tag == "error" then
      OnErrorHandler(h, s)
    else
      (s, [])
  }

  /** One browser callback: the new state and the effects, in order. */
  function Step(h: Handlers, decode: string -> Option<Json>, url: string, s: State, i: Input): (r: (State, seq<Effect>))
    ensures r.0.mounted == (i.Mount? || (s.mounted && !i.Unmount?))
    ensures Inv(s) ==> Inv(r.0)
  {
    match i
    case Mount =>
      if s.mounted then (s, [])
      else (s.(mounted := true, sourceOpen := true), [OpenStream(url, true)])
    case Event(tag, payload) =>
      if s.sourceOpen then Dispatch(h, decode, s, tag, payload) else (s, [])
    case TransportError =>
      if s.sourceOpen then OnErrorHandler(h, s) else (s, [])
    case TimerFire =>
      if s.timerPending then (s.(timerPending := false, sourceOpen := true), [OpenStream(url, true)])
      else (s, [])
    case Unmount =>
      (s.(mounted := false, sourceOpen := false, timerPending := false),
       (if s.sourceOpen then [CloseStream] else []) + (if s.timerPending then [CancelReconnect] else []))
  }

  /** A sequence of callbacks, delivered in order. */
  function Run(h: Handlers, decode: string -> Option<Json>, url: string, s: State, inputs: seq<Input>): (r: (State, seq<Effect>))
    ensures Inv(s) ==> Inv(r.0)
    decreases |inputs|
  {
    if inputs == [] then (s, [])
    else
      var (s1, e1) := Step(h, decode, url, s, inputs[0]);
      var (s2, e2) := Run(h, decode, url, s1, inputs[1..]);
      (s2, e1 + e2)
  }

  // ---------------------------------------------------------------- properties of one step

  /**
   * A stream is opened only when none is open and no reconnect is
   * pending, always to the same URL with credentials; so at most one
   * stream is ever open.
   */
  lemma OpenOnlyWhenClosed(h: Handlers, decode: string -> Option<Json>, url: string, s: State, i: Input)
    requires Inv(s)
    ensures var (t, e) := Step(h, decode, url, s, i);
      forall k :: 0 <= k < |e| && e[k].OpenStream? ==>
        e == [OpenStream(url, true)] && !s.sourceOpen && t.sourceOpen && !t.timerPending
  {
  }

  /** Mounting opens exactly one stream, to the events URL, with credentials, and leaves `isConnected` as it was. */
  lemma MountOpens(h: Handlers, decode: string -> Option<Json>, url: string, s: State)
    requires Inv(s) && !s.mounted
    ensures Step(h, decode, url, s, Mount) ==
      (State(true, true, false, s.isConnected), [OpenStream(url, true)])
  {
  }

  /** A `connected` event marks the client connected and calls `onConnected` if it is present. */
  lemma ConnectedEvent(h: Handlers, decode: string -> Option<Json>, url: string, s: State, payload: string)
    requires s.sourceOpen
    ensures var (t, e) := Step(h, decode, url, s, Event("connected", payload));
      t == s.(isConnected := true) && e == (if h.onConnected then [Invoke(Connected)] else [])
  {
  }

  /** A data event whose payload decodes calls exactly the matching handler, once, with the decoded value. */
  lemma DecodedEventCallsHandler(h: Handlers, decode: string -> Option<Json>, url: string, s: State, tag: string, payload: string)
    requires s.sourceOpen && IsDataTag(tag) && decode(payload).Some?
    ensures var (t, e) := Step(h, decode, url, s, Event(tag, payload));
      var c := DataCallback(tag, decode(payload).value);
      t == s && e == (if Registered(h, c) then [Invoke(c)] else [])
    ensures tag == "new_order" ==> DataCallback(tag, decode(payload).value) == NewOrder(decode(payload).value)
    ensures tag == "order_completed" ==> DataCallback(tag, decode(payload).value) == OrderCompleted(decode(payload).value)
    ensures tag == "stock_updated" ==> DataCallback(tag, decode(payload).value) == StockUpdated(decode(payload).value)
    ensures tag == "price_updated" ==> DataCallback(tag, decode(payload).value) == PriceUpdated(decode(payload).value)
  {
  }

  /** A payload that does not decode calls no handler and is only logged; the connection state stays. */
  lemma UndecodableEventOnlyLogs(h: Handlers, decode: string -> Option<Json>, url: string, s: State, tag: string, payload: string)
    requires s.sourceOpen && IsDataTag(tag) && decode(payload).None?
    ensures Step(h, decode, url, s, Event(tag, payload)) == (s, [LogParseFailure(tag)])
  {
  }

  /** A tag without a listener, and not `error`, changes nothing and calls nothing. */
  lemma UnknownTagIgnored(h: Handlers, decode: string -> Option<Json>, url: string, s: State, tag: string, payload: string)
    requires tag != "connected" && !IsDataTag(tag) && tag != "error"
    ensures Step(h, decode, url, s, Event(tag, payload)) == (s, [])
  {
  }

  /**
   * A server frame tagged `error` on the open stream does exactly what a
   * transport failure does: it closes the stream, reports the error and
   * schedules the reconnect.
   */
  lemma ErrorFrameActsAsTransportError(h: Handlers, decode: string -> Option<Json>, url: string, s: State, payload: string)
    requires Inv(s) && s.sourceOpen
    ensures Step(h, decode, url, s, Event("error", payload)) == Step(h, decode, url, s, TransportError)
    ensures Step(h, decode, url, s, Event("error", payload)).0 == State(s.mounted, false, true, false)
  {
  }

  /**
   * A transport error, in this order: closes the stream, calls `onError`
   * once with "SSE connection error", and schedules one reconnect in
   * 5000 ms; the client is then disconnected with a reconnect pending.
   */
  lemma TransportErrorSchedulesOneReconnect(h: Handlers, decode: string -> Option<Json>, url: string, s: State)
    requires Inv(s) && s.sourceOpen
    ensures var (t, e) := Step(h, decode, url, s, TransportError);
      && t == State(s.mounted, false, true, false)
      && e == [CloseStream] + (if h.onError then [Invoke(Error("SSE connection error"))] else []) + [ScheduleReconnect(5000)]
  {
  }

  // ---------------------------------------------------------------- properties of runs

  /**
   * After cleanup nothing happens until the next mount: no stream opens,
   * no handler is called, no timer is set, whatever the browser delivers.
   */
  lemma {:induction false} SilentAfterUnmount(h: Handlers, decode: string -> Option<Json>, url: string, s: State, inputs: seq<Input>)
    requires Inv(s) && !s.mounted
    requires forall k :: 0 <= k < |inputs| ==> inputs[k] != Mount
    ensures Run(h, decode, url, s, inputs) == (s, [])
    decreases |inputs|
  {
    if inputs != [] {
      var (t, e) := Step(h, decode, url, s, inputs[0]);
      assert t == s;
      assert e == [] by {
        if inputs[0].Unmount? {
          assert e == [] + [];
        }
      }
      forall k | 0 <= k < |inputs[1..]|
        ensures inputs[1..][k] != Mount
      {
        assert inputs[1..][k] == inputs[k + 1];
      }
      SilentAfterUnmount(h, decode, url, s, inputs[1..]);
      assert Run(h, decode, url, s, inputs) == (Run(h, decode, url, t, inputs[1..]).0, e + Run(h, decode, url, t, inputs[1..]).1);
    }
  }

  /** Unmounting during the reconnect delay cancels the timer, and no stream opens afterwards. */
  lemma {:induction false} UnmountDuringDelay(h: Handlers, decode: string -> Option<Json>, url: string, s: State, later: seq<Input>)
    requires Inv(s) && s.timerPending
    requires forall k :: 0 <= k < |later| ==> later[k] != Mount
    ensures Run(h, decode, url, s, [Unmount] + later) ==
      (State(false, false, false, s.isConnected), [CancelReconnect])
  {
    var (t, e) := Step(h, decode, url, s, Unmount);
    assert e == [CancelReconnect] by {
      assert e == [] + [CancelReconnect];
    }
    assert ([Unmount] + later)[0] == Unmount;
    assert ([Unmount] + later)[1..] == later;
    SilentAfterUnmount(h, decode, url, t, later);
    assert e + [] == e;
  }

  /**
   * The recovery cycle: an error, the timer firing, then `connected` on
   * the new stream. `onError` fires once, one reconnect is scheduled for
   * 5000 ms, the same URL is reopened with credentials, `onConnected`
   * fires again and the client ends connected.
   */
  lemma {:induction false} RecoveryCycle(h: Handlers, decode: string -> Option<Json>, url: string, s: State, payload: string)
    requires Inv(s) && s.sourceOpen
    ensures var (t, e) := Run(h, decode, url, s, [TransportError, TimerFire, Event("connected", payload)]);
      && t == State(s.mounted, true, false, true)
      && e == [CloseStream] + (if h.onError then [Invoke(Error(ConnectionErrorMessage))] else [])
              + [ScheduleReconnect(ReconnectDelayMs), OpenStream(url, true)]
              + (if h.onConnected then [Invoke(Connected)] else [])
  {
    var inputs := [TransportError, TimerFire, Event("connected", payload)];
    var (s1, e1) := Step(h, decode, url, s, TransportError);
    var (s2, e2) := Step(h, decode, url, s1, TimerFire);
    var (s3, e3) := Step(h, decode, url, s2, Event("connected", payload));
    assert inputs[1..] == [TimerFire, Event("connected", payload)];
    assert inputs[1..][1..] == [Event("connected", payload)];
    assert [Event("connected", payload)][1..] == [];
    assert e3 + [] == e3;
    assert Run(h, decode, url, s2, [Event("connected", payload)]) == (s3, e3);
    assert Run(h, decode, url, s1, inputs[1..]) == (s3, e2 + e3);
  }

  /** The handler calls a run makes, in order. */
  function Calls(effects: seq<Effect>): seq<Callback>
  {
    if effects == [] then []
    else (if effects[0].Invoke? then [effects[0].callback] else []) + Calls(effects[1..])
  }

  lemma {:induction false} CallsAppend(a: seq<Effect>, b: seq<Effect>)
    ensures Calls(a + b) == Calls(a) + Calls(b)
    decreases |a|
  {
    if a == [] {
      assert a + b == b;
    } else {
      var head := if a[0].Invoke? then [a[0].callback] else [];
      assert (a + b)[0] == a[0];
      assert (a + b)[1..] == a[1..] + b;
      assert Calls(a + b) == head + Calls(a[1..] + b);
      CallsAppend(a[1..], b);
      assert Calls(a) == head + Calls(a[1..]);
      assert head + (Calls(a[1..]) + Calls(b)) == (head + Calls(a[1..])) + Calls(b);
    }
  }

  /** An event whose handler is registered and whose payload decodes. */
  predicate Delivers(h: Handlers, decode: string -> Option<Json>, i: Input)
  {
    i.Event? && IsDataTag(i.tag) && decode(i.payload).Some? && Registered(h, DataCallback(i.tag, decode(i.payload).value))
  }

  /** The decoded payload of each event, as the call of its handler, in arrival order. */
  function Expected(h: Handlers, decode: string -> Option<Json>, events: seq<Input>): (r: seq<Callback>)
    requires forall k :: 0 <= k < |events| ==> Delivers(h, decode, events[k])
    ensures |r| == |events|
    ensures forall k :: 0 <= k < |r| ==> Registered(h, r[k]) && !r[k].Connected? && !r[k].Error?
  {
    if events == [] then []
    else
      assert Delivers(h, decode, events[0]);
      assert forall k :: 0 <= k < |events[1..]| ==> events[1..][k] == events[k + 1];
      [DataCallback(events[0].tag, decode(events[0].payload).value)] + Expected(h, decode, events[1..])
  }

  /**
   * Events are dispatched in the order they arrive: over an open stream,
   * a run of deliverable data events calls the handlers once each, in
   * that order, with the decoded payloads, and keeps the stream open.
   */
  lemma {:induction false} DeliveredInOrder(h: Handlers, decode: string -> Option<Json>, url: string, s: State, events: seq<Input>)
    requires s.sourceOpen
    requires forall k :: 0 <= k < |events| ==> Delivers(h, decode, events[k])
    ensures Run(h, decode, url, s, events).0 == s
    ensures Calls(Run(h, decode, url, s, events).1) == Expected(h, decode, events)
    decreases |events|
  {
    if events != [] {
      var i := events[0];
      var c := DataCallback(i.tag, decode(i.payload).value);
      assert Step(h, decode, url, s, i) == (s, [Invoke(c)]);
      assert forall k :: 0 <= k < |events[1..]| ==> events[1..][k] == events[k + 1];
      DeliveredInOrder(h, decode, url, s, events[1..]);
      CallsAppend([Invoke(c)], Run(h, decode, url, s, events[1..]).1);
      assert Calls([Invoke(c)]) == [c] by {
        assert [Invoke(c)][1..] == [];
      }
    }
  }

  // ---------------------------------------------------------------- the hook

  /**
   * One use of the hook. The handlers, the decoder and the URL are fixed
   * when it is created; the effect's mount and cleanup and the browser's
   * callbacks are its methods.
   */
  class LiveOrderClient {
    const handlers: Handlers
    const decode: string -> Option<Json>
    const url: string
    var mounted: bool
    var sourceOpen: bool
    var timerPending: bool
    var isConnected: bool
    ghost var trace: seq<Effect>

    function Snapshot(): State
      reads this
    {
      State(mounted, sourceOpen, timerPending, isConnected)
    }

    ghost predicate Valid()
      reads this
    {
      Inv(Snapshot())
    }

    /** The hook's first render: `isConnected` starts false, nothing is open. */
    constructor (handlers: Handlers, decode: string -> Option<Json>, env: string, hostname: Option<string>)
      ensures this.handlers == handlers && this.decode == decode
      ensures url == Api.GetApiBaseUrl(env, hostname) + EventsPath
      ensures Snapshot() == Initial && Valid() && trace == []
    {
      this.handlers := handlers;
      this.decode := decode;
      url := Api.GetApiBaseUrl(env, hostname) + EventsPath;
      mounted, sourceOpen, timerPending, isConnected := false, false, false, false;
      trace := [];
    }

    /** `connect`: a new EventSource with credentials becomes the current one. */
    method Connect()
      requires !sourceOpen
      modifies this
      ensures sourceOpen
      ensures mounted == old(mounted) && timerPending == old(timerPending) && isConnected == old(isConnected)
      ensures trace == old(trace) + [OpenStream(url, true)]
    {
      sourceOpen := true;
      trace := trace + [OpenStream(url, true)];
    }

    /** The effect runs: connect once. */
    method Mount()
      requires Valid() && !mounted
      modifies this
      ensures Valid()
      ensures mounted && sourceOpen && !timerPending && isConnected == old(isConnected)
      ensures trace == old(trace) + [OpenStream(url, true)]
      ensures Snapshot() == Step(handlers, decode, url, old(Snapshot()), Input.Mount).0
      ensures trace == old(trace) + Step(handlers, decode, url, old(Snapshot()), Input.Mount).1
    {
      Connect();
      mounted := true;
    }

    /** The `connected` listener: connected, then `onConnected` if present. */
    method OnConnectedEvent()
      requires Valid() && sourceOpen
      modifies this
      ensures Valid()
      ensures isConnected && mounted == old(mounted) && sourceOpen && timerPending == old(timerPending)
      ensures trace == old(trace) + (if handlers.onConnected then [Invoke(Connected)] else [])
    {
      isConnected := true;
      if handlers.onConnected {
        trace := trace + [Invoke(Connected)];
      }
    }

    /** A data listener: decode the payload, then call the tag's handler with it, or log the failure. */
    method OnDataEvent(tag: string, payload: string)
      requires Valid() && sourceOpen && IsDataTag(tag)
      modifies this
      ensures Snapshot() == old(Snapshot())
      ensures decode(payload).None? ==> trace == old(trace) + [LogParseFailure(tag)]
      ensures decode(payload).Some? ==>
        trace == old(trace) + Call(handlers, DataCallback(tag, decode(payload).value))
    {
      var decoded := decode(payload);
      match decoded
      case None =>
        trace := trace + [LogParseFailure(tag)];
      case Some(v) =>
        var c := DataCallback(tag, v);
        if Registered(handlers, c) {
          trace := trace + [Invoke(c)];
        }
    }

    /** The stream delivers an event: the listener registered for its tag runs, if there is one; `error` runs `onerror`. */
    method OnEvent(tag: string, payload: string)
      requires Valid()
      modifies this
      ensures Valid()
      ensures Snapshot() == Step(handlers, decode, url, old(Snapshot()), Event(tag, payload)).0
      ensures trace == old(trace) + Step(handlers, decode, url, old(Snapshot()), Event(tag, payload)).1
    {
      if !sourceOpen {
        return;
      }
      if tag == "connected" {
        OnConnectedEvent();
      } else if IsDataTag(tag) {
        OnDataEvent(tag, payload);
      } else if tag == "error" {
        OnTransportError();
      }
    }

    /** `onerror`: disconnected, stream closed, error reported, one reconnect scheduled. */
    method OnTransportError()
      requires Valid()
      modifies this
      ensures Valid()
      ensures old(sourceOpen) ==> !isConnected && !sourceOpen && timerPending
      ensures Snapshot() == Step(handlers, decode, url, old(Snapshot()), TransportError).0
      ensures trace == old(trace) + Step(handlers, decode, url, old(Snapshot()), TransportError).1
    {
      if !sourceOpen {
        return;
      }
      isConnected := false;
      sourceOpen := false;
      trace := trace + [CloseStream];
      if handlers.onError {
        trace := trace + [Invoke(Error(ConnectionErrorMessage))];
      }
      timerPending := true;
      trace := trace + [ScheduleReconnect(ReconnectDelayMs)];
    }

    /** The reconnect timer fires: connect again, to the same URL with the same handlers. */
    method OnTimerFire()
      requires Valid()
      modifies this
      ensures Valid()
      ensures old(timerPending) ==> sourceOpen && !timerPending && trace == old(trace) + [OpenStream(url, true)]
      ensures Snapshot() == Step(handlers, decode, url, old(Snapshot()), TimerFire).0
      ensures trace == old(trace) + Step(handlers, decode, url, old(Snapshot()), TimerFire).1
    {
      if !timerPending {
        return;
      }
      timerPending := false;
      Connect();
    }

    /** The effect's cleanup: close the current stream and clear the pending timer. */
    method Unmount()
      requires Valid()
      modifies this
      ensures Valid()
      ensures !mounted && !sourceOpen && !timerPending && isConnected == old(isConnected)
      ensures Snapshot() == Step(handlers, decode, url, old(Snapshot()), Input.Unmount).0
      ensures trace == old(trace) + Step(handlers, decode, url, old(Snapshot()), Input.Unmount).1
    {
      if sourceOpen {
        sourceOpen := false;
        trace := trace + [CloseStream];
      }
      if timerPending {
        timerPending := false;
        trace := trace + [CancelReconnect];
      }
      mounted := false;
    }
  }
}
