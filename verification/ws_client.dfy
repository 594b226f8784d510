/**
 * The browser side of the notification channel: a WebSocketClient keeping a
 * registry of message handlers per event name and reconnecting with
 * exponential backoff. Browser events (the socket opening or closing, the
 * reconnect timer firing) are methods the environment calls; whether
 * `new WebSocket` throws is a parameter.
 */
module WsClient {
  import opened Wrappers
  import opened Json
  import WsServer

  /** The identity of a registered callback. */
  type Handler = nat

  const MaxReconnectAttempts: nat := 10
  const InitialDelay: nat := 1000
  const MaxDelay: nat := 30000

  /** A socket's `readyState`. */
  datatype ReadyState = Connecting | Open | Closing | Closed

  // ---------------------------------------------------------------------------
  // Backoff
  // ---------------------------------------------------------------------------

  /** The reconnect bookkeeping: attempts so far, the next delay, and the pending timer's delay. */
  datatype Backoff = Backoff(attempts: nat, delay: nat, timer: Option<nat>)

  const Fresh: Backoff := Backoff(0, InitialDelay, None)

  /** Doubling, capped at MaxDelay. */
  function NextDelay(delay: nat): (r: nat)
    ensures r <= MaxDelay
    ensures delay <= MaxDelay ==> delay <= r
    ensures InitialDelay <= delay ==> InitialDelay <= r
    ensures r == MaxDelay || r == 2 * delay
  {
    if delay * 2 <= MaxDelay then delay * 2 else MaxDelay
  }

  /**
   * scheduleReconnect: nothing once the attempts are used up; otherwise a
   * timer with the current delay replaces any pending one and the delay doubles.
   */
  function Schedule(b: Backoff): (r: Backoff)
    ensures b.attempts >= MaxReconnectAttempts ==> r == b
    ensures b.attempts < MaxReconnectAttempts ==>
              r.timer == Some(b.delay) && r.delay == NextDelay(b.delay) && r.attempts == b.attempts
  {
    if b.attempts >= MaxReconnectAttempts then b
    else Backoff(b.attempts, NextDelay(b.delay), Some(b.delay))
  }

  /** The reconnect timer fires: one more attempt, no timer pending. */
  function Fired(b: Backoff): Backoff {
    b.(attempts := b.attempts + 1, timer := None)
  }

  /** The bounds every reachable backoff state keeps. */
  predicate BackoffValid(b: Backoff) {
    && InitialDelay <= b.delay <= MaxDelay
    && b.attempts <= MaxReconnectAttempts
    && (b.timer.Some? ==> b.attempts < MaxReconnectAttempts && InitialDelay <= b.timer.value <= MaxDelay)
  }

  lemma ScheduleKeepsBounds(b: Backoff)
    requires BackoffValid(b)
    ensures BackoffValid(Schedule(b))
    ensures Schedule(b).timer.None? <==> b.attempts >= MaxReconnectAttempts && b.timer.None?
  {
  }

  lemma FiredKeepsBounds(b: Backoff)
    requires BackoffValid(b) && b.timer.Some?
    ensures BackoffValid(Fired(b))
  {
  }

  function Pow2(n: nat): (r: nat)
    ensures r >= 1
  {
    if n == 0 then 1 else 2 * Pow2(n - 1)
  }

  /** The delay of the n-th reconnect of a run of failures: 1s, 2s, 4s, 8s, 16s, then 30s. */
  function DelayAt(n: nat): (r: nat)
    ensures InitialDelay <= r <= MaxDelay
  {
    if InitialDelay * Pow2(n) <= MaxDelay then InitialDelay * Pow2(n) else MaxDelay
  }

  lemma {:induction false} NextDelayAt(n: nat)
    ensures NextDelay(DelayAt(n)) == DelayAt(n + 1)
  {
    assert Pow2(n + 1) == 2 * Pow2(n);
    assert InitialDelay * Pow2(n + 1) == 2 * (InitialDelay * Pow2(n));
  }

  /** A failed connection after the timer fired: the timer fires, then the next one is scheduled. */
  function Retry(b: Backoff): Backoff {
    if b.timer.Some? then Schedule(Fired(b)) else b
  }

  /** The backoff state after the first failure and n failed retries. */
  function AfterRetries(n: nat): Backoff {
    if n == 0 then Schedule(Fresh) else Retry(AfterRetries(n - 1))
  }

  /**
   * A run of failures from a fresh client: retry n waits DelayAt(n), and after
   * ten retries no timer is left, so the client stops trying.
   */
  lemma {:induction false} RetriesBackOff(n: nat)
    ensures AfterRetries(n).attempts == if n <= MaxReconnectAttempts then n else MaxReconnectAttempts
    ensures AfterRetries(n).timer == if n < MaxReconnectAttempts then Some(DelayAt(n)) else None
    ensures n < MaxReconnectAttempts ==> AfterRetries(n).delay == DelayAt(n + 1)
  {
    if n == 0 {
      assert Pow2(1) == 2;
    } else {
      RetriesBackOff(n - 1);
      if n < MaxReconnectAttempts {
        NextDelayAt(n);
      }
    }
  }

  // ---------------------------------------------------------------------------
  // The handler registry
  // ---------------------------------------------------------------------------

  predicate NoDuplicates(s: seq<Handler>) {
    forall i, j :: 0 <= i < j < |s| ==> s[i] != s[j]
  }

  /** Every entry is a non-empty set of handlers, kept in insertion order. */
  predicate WellFormed(hs: map<string, seq<Handler>>) {
    forall e :: e in hs ==> hs[e] != [] && NoDuplicates(hs[e])
  }

  /** Deleting one handler from an insertion-ordered set. */
  function Remove(s: seq<Handler>, h: Handler): (r: seq<Handler>)
    ensures forall x :: x in r <==> x in s && x != h
    ensures NoDuplicates(s) ==> NoDuplicates(r)
    ensures |r| <= |s|
  {
    if s == [] then []
    else
      var rest := Remove(s[1..], h);
      assert NoDuplicates(s) ==> NoDuplicates(s[1..]) && s[0] !in s[1..];
      if s[0] == h then rest else [s[0]] + rest
  }

  lemma {:induction false} RemoveLast(s: seq<Handler>, h: Handler)
    requires h !in s
    ensures Remove(s + [h], h) == s
  {
    if s == [] {
      assert [] + [h] == [h];
    } else {
      assert (s + [h])[1..] == s[1..] + [h];
      RemoveLast(s[1..], h);
      assert s == [s[0]] + s[1..];
    }
  }

  /** The registry after `on(eventName, callback)`. */
  function WithHandler(hs: map<string, seq<Handler>>, eventName: string, callback: Handler)
    : (r: map<string, seq<Handler>>)
    requires WellFormed(hs)
    ensures WellFormed(r)
    ensures eventName in r && callback in r[eventName]
    ensures forall h :: h in r[eventName] <==> h == callback || (eventName in hs && h in hs[eventName])
    ensures forall e :: e != eventName ==> (e in r <==> e in hs) && (e in hs ==> r[e] == hs[e])
  {
    if eventName !in hs then hs[eventName := [callback]]
    else if callback in hs[eventName] then hs
    else hs[eventName := hs[eventName] + [callback]]
  }

  /** The registry after `off(eventName, callback)`: an event left without handlers is deleted. */
  function WithoutHandler(hs: map<string, seq<Handler>>, eventName: string, callback: Handler)
    : (r: map<string, seq<Handler>>)
    requires WellFormed(hs)
    ensures WellFormed(r)
    ensures eventName in r ==> eventName in hs && forall h :: h in r[eventName] <==> h in hs[eventName] && h != callback
    ensures eventName in hs && eventName !in r ==> forall h :: h in hs[eventName] ==> h == callback
    ensures forall e :: e != eventName ==> (e in r <==> e in hs) && (e in hs ==> r[e] == hs[e])
  {
    if eventName !in hs then hs
    else
      var rest := Remove(hs[eventName], callback);
      if rest == [] then hs - {eventName} else hs[eventName := rest]
  }

  /** Registering a callback twice stores it once. */
  lemma OnTwiceIsOnce(hs: map<string, seq<Handler>>, eventName: string, callback: Handler)
    requires WellFormed(hs)
    ensures WithHandler(WithHandler(hs, eventName, callback), eventName, callback) == WithHandler(hs, eventName, callback)
  {
  }

  /** Removing a callback just registered restores the registry. */
  lemma {:induction false} OffUndoesOn(hs: map<string, seq<Handler>>, eventName: string, callback: Handler)
    requires WellFormed(hs)
    requires eventName in hs ==> callback !in hs[eventName]
    ensures WithoutHandler(WithHandler(hs, eventName, callback), eventName, callback) == hs
  {
    if eventName in hs {
      RemoveLast(hs[eventName], callback);
      assert hs[eventName := hs[eventName]] == hs;
    } else {
      assert [callback] == [] + [callback];
      RemoveLast([], callback);
      assert hs[eventName := [callback]] - {eventName} == hs;
    }
  }

  /** The `type` the client dispatches on: a string `type` field of an object. */
  function TypeOf(message: JsonValue): Option<string> {
    if message.JObject? && "type" in message.fields && message.fields["type"].JString?
    then Some(message.fields["type"].s)
    else None
  }

  /** The `data` handed to the handlers; None stands for `undefined`. */
  function DataOf(message: JsonValue): Option<JsonValue> {
    if message.JObject? && "data" in message.fields then Some(message.fields["data"]) else None
  }

  /** `JSON.stringify({type, data})`, which leaves out an undefined `data`. */
  function Frame(msgType: string, data: Option<JsonValue>): (frame: JsonValue)
    ensures TypeOf(frame) == Some(msgType)
    ensures DataOf(frame) == data
  {
    match data
    case None => JObject(map["type" := JString(msgType)])
    case Some(d) => JObject(map["type" := JString(msgType), "data" := d])
  }

  /**
   * The handlers handleMessage calls for `message`, in registration order: those
   * registered for its `type`, and none when it has no string `type`.
   */
  function Dispatch(hs: map<string, seq<Handler>>, message: JsonValue): seq<Handler> {
    match TypeOf(message)
    case Some(t) => if t in hs then hs[t] else []
    case None => []
  }

  /**
   * What a client reads from each kind of server message: Envelope and TypeOnly
   * frames carry their type, and an Envelope its data; a Marshalled frame, being
   * a JSON string, carries neither.
   */
  lemma WireTypeOf(m: WsServer.Message)
    ensures TypeOf(WsServer.Wire(m)) == if m.Marshalled? then None else Some(m.msgType)
    ensures DataOf(WsServer.Wire(m)) == if m.Envelope? then Some(m.data) else None
  {
  }

  /** Whatever BroadcastMessage sends reaches no handler, whatever is registered. */
  lemma MarshalledNeverDispatched(hs: map<string, seq<Handler>>, msgType: string, data: JsonValue, encoded: string)
    ensures Dispatch(hs, WsServer.Wire(WsServer.Marshalled(msgType, data, encoded))) == []
  {
  }

  /** An envelope reaches exactly the handlers registered for its type, with its data. */
  lemma EnvelopeDispatched(hs: map<string, seq<Handler>>, msgType: string, data: JsonValue)
    ensures Dispatch(hs, WsServer.Wire(WsServer.Envelope(msgType, data))) == if msgType in hs then hs[msgType] else []
    ensures DataOf(WsServer.Wire(WsServer.Envelope(msgType, data))) == Some(data)
  {
  }

  /** A ping frame is answered by exactly one pong. */
  lemma PingAnswered(progress: WsServer.ProgressInfo, queue: JsonValue)
    ensures WsServer.HandleClientMessage(Frame("ping", None).fields, progress, queue) == [WsServer.TypeOnly("pong")]
  {
  }

  /** A request_status frame is answered by exactly one status_update carrying progress and queue. */
  lemma RequestStatusAnswered(progress: WsServer.ProgressInfo, queue: JsonValue)
    ensures WsServer.HandleClientMessage(Frame("request_status", None).fields, progress, queue)
            == [WsServer.Envelope("status_update", JObject(map["progress" := progress.data, "queue" := queue]))]
  {
  }

  // ---------------------------------------------------------------------------
  // WebSocketClient
  // ---------------------------------------------------------------------------

  class WebSocketClient {
    /** `ws`: None while null, otherwise the socket's readyState. */
    var socket: Option<ReadyState>
    /** `reconnectTimer`: the delay of the pending reconnect, if one is pending. */
    var timer: Option<nat>
    var handlers: map<string, seq<Handler>>
    var attempts: nat
    var delay: nat
    /** Whether the last socket created still has the client's `onclose` listener. */
    var onCloseAttached: bool

    function State(): Backoff
      reads this
    {
      Backoff(attempts, delay, timer)
    }

    ghost predicate Valid()
      reads this
    {
      BackoffValid(State()) && WellFormed(handlers)
    }

    function IsConnected(): bool
      reads this
    {
      socket == Some(Open)
    }

    /** The constructor connects at once. */
    constructor (constructorThrows: bool)
      ensures Valid() && handlers == map[]
      ensures !constructorThrows ==> socket == Some(Connecting) && State() == Fresh && onCloseAttached
      ensures constructorThrows ==> socket == None && State() == Schedule(Fresh) && !onCloseAttached
    {
      socket := None;
      onCloseAttached := false;
      timer := None;
      handlers := map[];
      attempts := 0;
      delay := InitialDelay;
      new;
      Connect(constructorThrows);
    }

    /** connect: a new socket, or, when its constructor throws, a scheduled retry. */
    method Connect(constructorThrows: bool)
      requires Valid()
      modifies this
      ensures Valid() && handlers == old(handlers)
      ensures !constructorThrows ==> socket == Some(Connecting) && State() == old(State()) && onCloseAttached
      ensures constructorThrows ==>
                socket == old(socket) && State() == Schedule(old(State())) && onCloseAttached == old(onCloseAttached)
    {
      if constructorThrows {
        ScheduleReconnect();
      } else {
        socket := Some(Connecting);
        onCloseAttached := true;
      }
    }

    /** scheduleReconnect */
    method ScheduleReconnect()
      requires Valid()
      modifies this
      ensures Valid() && handlers == old(handlers) && socket == old(socket)
      ensures onCloseAttached == old(onCloseAttached)
      ensures State() == Schedule(old(State()))
    {
      ScheduleKeepsBounds(State());
      if attempts >= MaxReconnectAttempts {
        return;
      }
      timer := Some(delay);
      delay := NextDelay(delay);
    }

    /** The reconnect timer fires: one more attempt, then connect. */
    method FireTimer(constructorThrows: bool)
      requires Valid() && timer.Some?
      modifies this
      ensures Valid() && handlers == old(handlers)
      ensures attempts == old(attempts) + 1
      ensures !constructorThrows ==> socket == Some(Connecting) && State() == Fired(old(State())) && onCloseAttached
      ensures constructorThrows ==> onCloseAttached == old(onCloseAttached)
      ensures constructorThrows ==> socket == old(socket) && State() == Retry(old(State()))
    {
      FiredKeepsBounds(State());
      timer := None;
      attempts := attempts + 1;
      Connect(constructorThrows);
    }

    /** onopen: the socket is open and the backoff starts over. */
    method OnOpen()
      requires Valid()
      modifies this
      ensures Valid() && handlers == old(handlers) && timer == old(timer) && onCloseAttached == old(onCloseAttached)
      ensures socket == if old(socket).Some? then Some(Open) else None
      ensures attempts == 0 && delay == InitialDelay
    {
      if socket.Some? {
        socket := Some(Open);
      }
      attempts := 0;
      delay := InitialDelay;
    }

    /**
     * The close event of the last socket: while its `onclose` listener is attached,
     * the socket is closed and a reconnect is scheduled; a detached listener does
     * nothing. close() leaves the listener attached, so the close event that
     * follows close() schedules a reconnect too.
     */
    method OnClose()
      requires Valid()
      modifies this
      ensures Valid() && handlers == old(handlers) && onCloseAttached == old(onCloseAttached)
      ensures onCloseAttached ==> socket == (if old(socket).Some? then Some(Closed) else None)
      ensures onCloseAttached ==> State() == Schedule(old(State()))
      ensures !onCloseAttached ==> socket == old(socket) && State() == old(State())
    {
      if !onCloseAttached {
        return;
      }
      if socket.Some? {
        socket := Some(Closed);
      }
      ScheduleReconnect();
    }

    /** on: the callback is registered for the event, once. */
    method On(eventName: string, callback: Handler)
      requires Valid()
      modifies this
      ensures Valid() && State() == old(State()) && socket == old(socket)
      ensures handlers == WithHandler(old(handlers), eventName, callback) && onCloseAttached == old(onCloseAttached)
    {
      ghost var registered := handlers;
      if eventName !in handlers {
        handlers := handlers[eventName := []];
      }
      if callback !in handlers[eventName] {
        handlers := handlers[eventName := handlers[eventName] + [callback]];
      }
      if eventName !in registered {
        assert [] + [callback] == [callback];
        assert handlers == registered[eventName := [callback]];
      }
    }

    /** off: without a callback the whole event goes; with one, only that callback. */
    method Off(eventName: string, callback: Option<Handler>)
      requires Valid()
      modifies this
      ensures Valid() && State() == old(State()) && socket == old(socket)
      ensures onCloseAttached == old(onCloseAttached)
      ensures callback.None? ==> handlers == old(handlers) - {eventName}
      ensures callback.Some? ==> handlers == WithoutHandler(old(handlers), eventName, callback.value)
    {
      if callback.None? {
        handlers := handlers - {eventName};
      } else if eventName in handlers {
        var rest := Remove(handlers[eventName], callback.value);
        if rest == [] {
          handlers := handlers - {eventName};
        } else {
          handlers := handlers[eventName := rest];
        }
      }
    }

    /**
     * handleMessage: the handlers called, in registration order, and the data
     * each is called with. A message without a string `type`, or with a type
     * nobody registered, calls nothing.
     */
    method HandleMessage(message: JsonValue) returns (calls: seq<Handler>, data: Option<JsonValue>)
      requires Valid()
      ensures data == DataOf(message)
      ensures TypeOf(message).Some? && TypeOf(message).value in handlers ==>
                calls == handlers[TypeOf(message).value]
      ensures TypeOf(message).None? || TypeOf(message).value !in handlers ==> calls == []
      ensures calls == Dispatch(handlers, message)
      ensures NoDuplicates(calls)
    {
      data := DataOf(message);
      calls := [];
      var eventType := TypeOf(message);
      if eventType.None? || eventType.value !in handlers {
        return;
      }
      var registered := handlers[eventType.value];
      var i := 0;
      while i < |registered|
        invariant 0 <= i <= |registered|
        invariant calls == registered[..i]
      {
        calls := calls + [registered[i]];
        i := i + 1;
      }
    }

    /** send: a frame goes out only while the socket is open. */
    method Send(msgType: string, data: Option<JsonValue>) returns (frame: Option<JsonValue>)
      ensures frame.Some? <==> IsConnected()
      ensures frame.Some? ==> frame.value == Frame(msgType, data)
      ensures frame.Some? ==> TypeOf(frame.value) == Some(msgType) && DataOf(frame.value) == data
    {
      if socket == Some(Open) {
        frame := Some(Frame(msgType, data));
      } else {
        frame := None;
      }
    }

    /** requestStatus */
    method RequestStatus() returns (frame: Option<JsonValue>)
      ensures frame.Some? <==> IsConnected()
      ensures frame.Some? ==> frame.value == Frame("request_status", None)
    {
      frame := Send("request_status", None);
    }

    /** ping */
    method Ping() returns (frame: Option<JsonValue>)
      ensures frame.Some? <==> IsConnected()
      ensures frame.Some? ==> frame.value == Frame("ping", None)
    {
      frame := Send("ping", None);
    }

    /** close: no timer, no socket, no handlers; the attempt count and delay stay. */
    method Close()
      requires Valid()
      modifies this
      ensures Valid()
      ensures timer == None && socket == None && handlers == map[]
      ensures attempts == old(attempts) && delay == old(delay)
      ensures onCloseAttached == old(onCloseAttached)
      ensures !IsConnected()
    {
      timer := None;
      socket := None;
      handlers := map[];
    }

    /**
     * close with the evident intent: the socket's `onclose` listener is detached
     * before the socket is closed, so its close event no longer reconnects.
     */
    method CloseDetached()
      requires Valid()
      modifies this
      ensures Valid()
      ensures timer == None && socket == None && handlers == map[]
      ensures attempts == old(attempts) && delay == old(delay)
      ensures !onCloseAttached
      ensures !IsConnected()
    {
      onCloseAttached := false;
      timer := None;
      socket := None;
      handlers := map[];
    }

    /**
     * close() followed by the close event of the socket it closed, as written:
     * while attempts remain, a reconnect timer is pending again afterwards.
     */
    method CloseThenCloseEvent()
      requires Valid()
      modifies this
      ensures Valid() && socket == None && handlers == map[]
      ensures old(onCloseAttached) && old(attempts) < MaxReconnectAttempts ==> timer == Some(old(delay))
    {
      Close();
      OnClose();
    }

    /** CloseDetached followed by that close event: no reconnect timer is pending afterwards. */
    method CloseDetachedThenCloseEvent()
      requires Valid()
      modifies this
      ensures Valid() && socket == None && handlers == map[]
      ensures timer == None
      ensures attempts == old(attempts) && delay == old(delay)
    {
      CloseDetached();
      OnClose();
    }
  }

  /** While attempts remain, the close event that follows close() brings a reconnect timer back. */
  lemma CloseEventAfterCloseReschedules(b: Backoff)
    requires BackoffValid(b) && b.attempts < MaxReconnectAttempts
    ensures Schedule(b.(timer := None)).timer == Some(b.delay)
  {
  }
}
