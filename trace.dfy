/**
 * What goes into and comes out of the websocket ingestion handler in app.js.
 * Inbound events are the transport's `connect`, `webstream` and `disconnect`
 * plus the resolution of a `postAPI` call; effects are what the handler does
 * in response: console lines, `postAPI` calls and `io.emit` broadcasts.
 * The functions below read a history of events or a trace of effects.
 */
module Trace {

  /** The identifier socket.io assigns to a connection. */
  type ConnId = nat

  /** One streamed chunk (a scan frame); the handler never looks inside it. */
  type Chunk = seq<bv8>

  /** The event name the handler listens on and broadcasts on. */
  const StreamEvent: string := "webstream"

  /** The message broadcast when `postAPI` reports failure. */
  const FailMessage: string := "fail"

  /** What a connected client receives from `io.emit`. */
  datatype Message = Message(event: string, payload: string)

  /** An inbound event, delivered to the handler one at a time. */
  datatype Event =
    | Connect(conn: ConnId)
    | Webstream(conn: ConnId, data: Chunk)
    | Outcome(success: bool)
    | Disconnect(conn: ConnId)

  /** An observable effect of the handler. */
  datatype Effect =
    | ConnectLogged
    | DisconnectLogged
    | BatchLogged
    | Dispatched(data: Chunk)
    | SuccessLogged
    | Emitted(to: set<ConnId>, message: Message)

  /** Number of `webstream` events in a history, whichever socket sent them. */
  function ChunkEvents(h: seq<Event>): (r: nat)
    ensures r <= |h|
  {
    if h == [] then 0
    else ChunkEvents(h[..|h| - 1]) + (if h[|h| - 1].Webstream? then 1 else 0)
  }

  /** Number of `webstream` events in a history that came from connection `c`. */
  function ChunksFrom(h: seq<Event>, c: ConnId): (r: nat)
    ensures r <= ChunkEvents(h)
  {
    if h == [] then 0
    else ChunksFrom(h[..|h| - 1], c) + (if h[|h| - 1].Webstream? && h[|h| - 1].conn == c then 1 else 0)
  }

  /** The payloads of the `webstream` events of a history, in arrival order. */
  function ChunkData(h: seq<Event>): (r: seq<Chunk>)
    ensures |r| == ChunkEvents(h)
  {
    if h == [] then []
    else ChunkData(h[..|h| - 1]) + (if h[|h| - 1].Webstream? then [h[|h| - 1].data] else [])
  }

  /** Number of `postAPI` resolutions (success or failure) in a history. */
  function Outcomes(h: seq<Event>): (r: nat)
  {
    if h == [] then 0
    else Outcomes(h[..|h| - 1]) + (if h[|h| - 1].Outcome? then 1 else 0)
  }

  /** The connections open after a history: connect adds one, disconnect removes it. */
  function LiveAfter(h: seq<Event>): (r: set<ConnId>)
  {
    if h == [] then {}
    else
      var live := LiveAfter(h[..|h| - 1]);
      match h[|h| - 1]
      case Connect(c) => live + {c}
      case Disconnect(c) => live - {c}
      case _ => live
  }

  /** Number of batch log lines in an effect trace. */
  function BatchLogs(fx: seq<Effect>): (r: nat)
  {
    if fx == [] then 0
    else BatchLogs(fx[..|fx| - 1]) + (if fx[|fx| - 1].BatchLogged? then 1 else 0)
  }

  /** The payloads handed to `postAPI`, in call order. */
  function Dispatches(fx: seq<Effect>): (r: seq<Chunk>)
  {
    if fx == [] then []
    else Dispatches(fx[..|fx| - 1]) + (if fx[|fx| - 1].Dispatched? then [fx[|fx| - 1].data] else [])
  }

  /** The messages connection `c` received, in order: one per broadcast while it was open. */
  function Received(fx: seq<Effect>, c: ConnId): (r: seq<Message>)
  {
    if fx == [] then []
    else
      var last := fx[|fx| - 1];
      Received(fx[..|fx| - 1], c) + (if last.Emitted? && c in last.to then [last.message] else [])
  }

  lemma PrefixOfAppend<T>(s: seq<T>, x: T)
    ensures (s + [x])[..|s|] == s
  {
  }

  /** Effects other than a broadcast (log lines, `postAPI` calls) deliver nothing to any client. */
  lemma LogEffectsDeliverNothing(fx: seq<Effect>, e: Effect, c: ConnId)
    requires !e.Emitted?
    ensures Received(fx + [e], c) == Received(fx, c)
  {
  }

  /**
   * A failure broadcast to the set `live` adds exactly one ('webstream', 'fail')
   * message for each connection in `live` and nothing for any other.
   */
  lemma FailBroadcastReachesEveryLive(fx: seq<Effect>, live: set<ConnId>, c: ConnId)
    ensures Received(fx + [Emitted(live, Message(StreamEvent, FailMessage))], c)
         == Received(fx, c) + (if c in live then [Message(StreamEvent, FailMessage)] else [])
  {
  }

  /** Every broadcast in the trace is ('webstream', 'fail'). */
  ghost predicate OnlyFailBroadcasts(fx: seq<Effect>)
  {
    forall i :: 0 <= i < |fx| && fx[i].Emitted? ==> fx[i].message == Message(StreamEvent, FailMessage)
  }

  /**
   * When the only broadcast is the failure one, a client never receives
   * anything but ('webstream', 'fail').
   */
  lemma {:induction false} OnlyFailReceived(fx: seq<Effect>, c: ConnId)
    requires OnlyFailBroadcasts(fx)
    ensures forall m :: m in Received(fx, c) ==> m == Message(StreamEvent, FailMessage)
  {
    if fx != [] {
      OnlyFailReceived(fx[..|fx| - 1], c);
    }
  }

  /**
   * When every chunk of a history comes from `a` or from `b`, the total the
   * shared counter sees is the sum of the two senders' chunks: both sockets
   * advance one counter. Connects, disconnects and outcomes may be interleaved.
   */
  lemma {:induction false} SharedCount(h: seq<Event>, a: ConnId, b: ConnId)
    requires a != b
    requires forall i :: 0 <= i < |h| && h[i].Webstream? ==> h[i].conn in {a, b}
    ensures ChunkEvents(h) == ChunksFrom(h, a) + ChunksFrom(h, b)
  {
    if h != [] {
      SharedCount(h[..|h| - 1], a, b);
    }
  }
}
