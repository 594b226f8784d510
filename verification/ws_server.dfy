/**
 * The server side of the notification channel: a WebSocketManager holding the
 * connected clients and a bounded broadcast buffer, the loop that drains the
 * buffer into every client, the poller that feeds it, the reply to client
 * messages, and the package-level broadcast helpers guarded against a missing
 * manager. Goroutines and locks are replaced by one step at a time.
 */
module WsServer {
  import opened Wrappers
  import opened Json

  /** The capacity of the broadcast channel. */
  const BroadcastCapacity: nat := 100

  /** The identity of a `*websocket.Conn`. */
  type ConnId = nat

  /** A message as the server queues or writes it. */
  datatype Message =
    /** `map{"type": msgType, "data": data}`, which WriteJSON sends as that JSON object. */
    | Envelope(msgType: string, data: JsonValue)
    /** `map{"type": msgType}`. */
    | TypeOnly(msgType: string)
    /**
     * The `[]byte` that json.Marshal makes of an envelope. WriteJSON marshals it
     * once more, and encoding/json writes a byte slice as a JSON string holding
     * its base64 text, `encoded`; computing that text is not part of this model.
     */
    | Marshalled(msgType: string, data: JsonValue, encoded: string)

  /**
   * The JSON a browser client parses from the frame WriteJSON writes for `m`: the
   * object itself for Envelope and TypeOnly, a JSON string for Marshalled.
   */
  function Wire(m: Message): JsonValue {
    match m
    case Envelope(msgType, data) => JObject(map["type" := JString(msgType), "data" := data])
    case TypeOnly(msgType) => JObject(map["type" := JString(msgType)])
    case Marshalled(_, _, encoded) => JString(encoded)
  }

  /** Download progress from the back end: whether a download runs, and the whole record as JSON. */
  datatype ProgressInfo = ProgressInfo(isDownloading: bool, data: JsonValue)

  function ProgressMessage(progress: ProgressInfo): Message {
    Envelope("download_progress", progress.data)
  }

  function QueueMessage(queue: JsonValue): Message {
    Envelope("queue_update", queue)
  }

  // ---------------------------------------------------------------------------
  // The bounded broadcast buffer, as values
  // ---------------------------------------------------------------------------

  /** A non-blocking send: appended when the buffer has room, dropped otherwise. */
  function Offer(pending: seq<Message>, m: Message): (r: seq<Message>)
    ensures |pending| < BroadcastCapacity ==> r == pending + [m]
    ensures |pending| >= BroadcastCapacity ==> r == pending
  {
    if |pending| < BroadcastCapacity then pending + [m] else pending
  }

  /** Several sends in a row. */
  function OfferAll(pending: seq<Message>, ms: seq<Message>): seq<Message>
    decreases |ms|
  {
    if ms == [] then pending else OfferAll(Offer(pending, ms[0]), ms[1..])
  }

  function Min(a: int, b: int): int {
    if a <= b then a else b
  }

  /**
   * Sending `ms` into a buffer with room for k more keeps the first min(|ms|, k)
   * of them, in order, and drops the rest; the buffer never exceeds its capacity.
   */
  lemma {:induction false} OfferAllKeepsPrefix(pending: seq<Message>, ms: seq<Message>)
    requires |pending| <= BroadcastCapacity
    ensures OfferAll(pending, ms) == pending + ms[..Min(|ms|, BroadcastCapacity - |pending|)]
    ensures |OfferAll(pending, ms)| <= BroadcastCapacity
    decreases |ms|
  {
    if ms != [] {
      var next := Offer(pending, ms[0]);
      OfferAllKeepsPrefix(next, ms[1..]);
      if |pending| < BroadcastCapacity {
        assert next == pending + [ms[0]];
        assert ms[..Min(|ms|, BroadcastCapacity - |pending|)]
               == [ms[0]] + ms[1..][..Min(|ms[1..]|, BroadcastCapacity - |next|)];
      }
    }
  }

  /** A burst of 150 messages into an empty buffer keeps the first 100. */
  lemma {:induction false} BurstIntoEmptyBuffer(ms: seq<Message>)
    requires |ms| == 150
    ensures OfferAll([], ms) == ms[..100]
  {
    OfferAllKeepsPrefix([], ms);
  }

  // ---------------------------------------------------------------------------
  // WebSocketManager
  // ---------------------------------------------------------------------------

  class WebSocketManager {
    /** The registered connections (`map[*websocket.Conn]bool`, every value true). */
    var clients: set<ConnId>
    /** The messages waiting in the broadcast channel, oldest first. */
    var pending: seq<Message>

    ghost predicate Valid()
      reads this
    {
      |pending| <= BroadcastCapacity
    }

    /** NewWebSocketManager: no clients, an empty buffer. */
    constructor ()
      ensures Valid() && clients == {} && pending == []
    {
      clients := {};
      pending := [];
    }

    /** addClient */
    method AddClient(conn: ConnId)
      requires Valid()
      modifies this
      ensures Valid()
      ensures clients == old(clients) + {conn} && pending == old(pending)
    {
      clients := clients + {conn};
    }

    /** removeClient; removing a connection that is not registered changes nothing. */
    method RemoveClient(conn: ConnId)
      requires Valid()
      modifies this
      ensures Valid()
      ensures clients == old(clients) - {conn} && pending == old(pending)
      ensures conn !in old(clients) ==> clients == old(clients)
    {
      clients := clients - {conn};
    }

    /** Broadcast: never blocks; a full buffer drops the message and is left as it was. */
    method Broadcast(m: Message) returns (queued: bool)
      requires Valid()
      modifies this
      ensures Valid()
      ensures queued <==> |old(pending)| < BroadcastCapacity
      ensures pending == Offer(old(pending), m) && clients == old(clients)
    {
      if |pending| < BroadcastCapacity {
        pending := pending + [m];
        queued := true;
      } else {
        queued := false;
      }
    }

    /**
     * One turn of the broadcast loop: takes the oldest pending message and
     * writes it to every registered client. `failing` is the set of connections
     * whose write fails; each of those is closed and removed. The channel
     * receive blocks while the buffer is empty, so a turn needs a message.
     */
    method DeliverNext(failing: set<ConnId>) returns (message: Message, reached: set<ConnId>)
      requires Valid() && |pending| > 0
      modifies this
      ensures Valid()
      ensures message == old(pending)[0] && pending == old(pending)[1..]
      ensures reached == old(clients) - failing
      ensures clients == old(clients) - failing
    {
      message := pending[0];
      pending := pending[1..];
      var remaining := clients;
      reached := {};
      while remaining != {}
        invariant Valid() && pending == old(pending)[1..]
        invariant remaining <= old(clients)
        invariant reached == (old(clients) - remaining) - failing
        invariant clients == old(clients) - ((old(clients) - remaining) * failing)
        decreases remaining
      {
        var client :| client in remaining;
        if client in failing {
          RemoveClient(client);
        } else {
          reached := reached + {client};
        }
        remaining := remaining - {client};
      }
    }

    /**
     * One pass of pollUpdates: a download_progress message only while a download
     * runs, then always a queue_update.
     */
    method PollUpdates(progress: ProgressInfo, queue: JsonValue)
      requires Valid()
      modifies this
      ensures Valid()
      ensures pending == OfferAll(old(pending), PollMessages(progress, queue)) && clients == old(clients)
    {
      ghost var before := pending;
      if progress.isDownloading {
        var _ := Broadcast(ProgressMessage(progress));
      }
      ghost var middle := pending;
      var _ := Broadcast(QueueMessage(queue));
      ghost var ms := PollMessages(progress, queue);
      assert OfferAll(middle, [QueueMessage(queue)]) == pending;
      if progress.isDownloading {
        assert ms[1..] == [QueueMessage(queue)];
        assert OfferAll(before, ms) == OfferAll(middle, [QueueMessage(queue)]);
      }
    }
  }

  /** The messages one poll pass broadcasts, in order. */
  function PollMessages(progress: ProgressInfo, queue: JsonValue): (ms: seq<Message>)
    ensures |ms| == if progress.isDownloading then 2 else 1
    ensures ms[|ms| - 1] == QueueMessage(queue)
    ensures ProgressMessage(progress) in ms <==> progress.isDownloading
  {
    if progress.isDownloading then [ProgressMessage(progress), QueueMessage(queue)] else [QueueMessage(queue)]
  }

  // ---------------------------------------------------------------------------
  // Client messages
  // ---------------------------------------------------------------------------

  /**
   * handleClientMessage: the messages written back to the sending connection.
   * A missing or non-string `type` and any unknown type get no answer; `ping`
   * gets one `pong`; `request_status` gets one `status_update` carrying the
   * current progress and queue.
   */
  function HandleClientMessage(msg: map<string, JsonValue>, progress: ProgressInfo, queue: JsonValue)
    : (replies: seq<Message>)
    ensures ("type" !in msg || !msg["type"].JString?) ==> replies == []
    ensures "type" in msg && msg["type"] == JString("ping") ==> replies == [TypeOnly("pong")]
    ensures "type" in msg && msg["type"] == JString("request_status") ==>
              replies == [Envelope("status_update", JObject(map["progress" := progress.data, "queue" := queue]))]
    ensures "type" in msg && msg["type"].JString? && msg["type"].s != "ping" && msg["type"].s != "request_status"
            ==> replies == []
    ensures |replies| <= 1
  {
    if "type" !in msg || !msg["type"].JString? then []
    else
      var msgType := msg["type"].s;
      if msgType == "ping" then [TypeOnly("pong")]
      else if msgType == "request_status" then
        [Envelope("status_update", JObject(map["progress" := progress.data, "queue" := queue]))]
      else []
  }

  // ---------------------------------------------------------------------------
  // The package-level helpers over the global manager
  // ---------------------------------------------------------------------------

  /** BroadcastDownloadProgress: does nothing while the manager is not initialised. */
  method BroadcastDownloadProgress(manager: WebSocketManager?, progress: ProgressInfo)
    requires manager != null ==> manager.Valid()
    modifies manager
    ensures manager != null ==> manager.Valid()
    ensures manager != null ==>
              manager.pending == Offer(old(manager.pending), ProgressMessage(progress))
              && manager.clients == old(manager.clients)
  {
    if manager != null {
      var _ := manager.Broadcast(ProgressMessage(progress));
    }
  }

  /** BroadcastQueueUpdate: does nothing while the manager is not initialised. */
  method BroadcastQueueUpdate(manager: WebSocketManager?, queue: JsonValue)
    requires manager != null ==> manager.Valid()
    modifies manager
    ensures manager != null ==> manager.Valid()
    ensures manager != null ==>
              manager.pending == Offer(old(manager.pending), QueueMessage(queue))
              && manager.clients == old(manager.clients)
  {
    if manager != null {
      var _ := manager.Broadcast(QueueMessage(queue));
    }
  }

  const NotInitialised: string := "WebSocket manager not initialized"

  /**
   * BroadcastMessage, as written: reports an error while the manager is not
   * initialised; otherwise queues the json.Marshal bytes of the envelope, which
   * reach clients as a base64 string rather than as the envelope. `encoded` is
   * that base64 text.
   */
  method BroadcastMessage(manager: WebSocketManager?, msgType: string, data: JsonValue, encoded: string)
    returns (err: Option<string>)
    requires manager != null ==> manager.Valid()
    modifies manager
    ensures manager == null <==> err == Some(NotInitialised)
    ensures err.None? <==> manager != null
    ensures manager != null ==>
              manager.Valid()
              && manager.pending == Offer(old(manager.pending), Marshalled(msgType, data, encoded))
              && manager.clients == old(manager.clients)
  {
    if manager == null {
      return Some(NotInitialised);
    }
    var _ := manager.Broadcast(Marshalled(msgType, data, encoded));
    return None;
  }

  /**
   * BroadcastMessage with the evident intent: the envelope itself is queued,
   * so clients receive `{type, data}` and dispatch on `type`.
   */
  method BroadcastEnvelope(manager: WebSocketManager?, msgType: string, data: JsonValue)
    returns (err: Option<string>)
    requires manager != null ==> manager.Valid()
    modifies manager
    ensures manager == null <==> err == Some(NotInitialised)
    ensures err.None? <==> manager != null
    ensures manager != null ==>
              manager.Valid()
              && manager.pending == Offer(old(manager.pending), Envelope(msgType, data))
              && manager.clients == old(manager.clients)
    ensures manager != null && |old(manager.pending)| < BroadcastCapacity ==>
              Wire(manager.pending[|manager.pending| - 1]) == JObject(map["type" := JString(msgType), "data" := data])
  {
    if manager == null {
      return Some(NotInitialised);
    }
    var _ := manager.Broadcast(Envelope(msgType, data));
    return None;
  }
}
