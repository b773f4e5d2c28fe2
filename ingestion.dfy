/**
 * The websocket ingestion handler registered with `io.on('connection', ...)`
 * in app.js, as one object: the process-wide `chunkCount`, the set of open
 * connections that `io.emit` reaches, the `postAPI` calls still in flight,
 * and the trace of effects. Each handler runs as one atomic step on the
 * single event loop, so each is one method.
 */
module Ingestion {
  import opened BatchCounter
  import opened Trace

  class StreamServer {
    /** The module-level counter of `webstream` events since the last batch boundary. */
    var chunkCount: nat
    /** The connections `io.emit` currently reaches (socket.io's connection table). */
    var live: set<ConnId>
    /** Payloads of the `postAPI` calls whose callbacks have not run yet. */
    var pending: seq<Chunk>
    /** Everything the handler has done so far, in order. */
    var effects: seq<Effect>
    /** Every inbound event handled so far, in order. */
    ghost var history: seq<Event>

    /**
     * The counter, the batch log, the `postAPI` calls and the connection set
     * are all determined by the history: the counter and the batch log by the
     * number of chunks alone, whichever sockets sent them. The only broadcast
     * ever made is the failure one.
     */
    ghost predicate Valid()
      reads this
    {
      && chunkCount == CountAfter(ChunkEvents(history))
      && BatchLogs(effects) == BatchesAfter(ChunkEvents(history))
      && Dispatches(effects) == ChunkData(history)
      && live == LiveAfter(history)
      && |pending| + Outcomes(history) == ChunkEvents(history)
      && OnlyFailBroadcasts(effects)
    }

    /** Process start: `chunkCount` is 0, nobody is connected, nothing has happened. */
    constructor ()
      ensures Valid()
      ensures chunkCount == 0 && live == {} && pending == [] && effects == [] && history == []
    {
      chunkCount := 0;
      live := {};
      pending := [];
      effects := [];
      history := [];
    }

    /** `connection`: log it; the counter and every client are left alone. */
    method OnConnect(c: ConnId)
      requires Valid()
      requires c !in live
      modifies this
      ensures Valid()
      ensures live == old(live) + {c}
      ensures chunkCount == old(chunkCount) && pending == old(pending)
      ensures effects == old(effects) + [ConnectLogged]
      ensures history == old(history) + [Connect(c)]
      ensures forall d :: Received(effects, d) == Received(old(effects), d)
    {
      PrefixOfAppend(history, Connect(c));
      PrefixOfAppend(effects, ConnectLogged);
      forall d ensures Received(effects + [ConnectLogged], d) == Received(effects, d) {
        LogEffectsDeliverNothing(effects, ConnectLogged, d);
      }
      effects := effects + [ConnectLogged];
      live := live + {c};
      history := history + [Connect(c)];
    }

    /** `disconnect`: log it; the counter and every client are left alone. */
    method OnDisconnect(c: ConnId)
      requires Valid()
      requires c in live
      modifies this
      ensures Valid()
      ensures live == old(live) - {c}
      ensures chunkCount == old(chunkCount) && pending == old(pending)
      ensures effects == old(effects) + [DisconnectLogged]
      ensures history == old(history) + [Disconnect(c)]
      ensures forall d :: Received(effects, d) == Received(old(effects), d)
    {
      PrefixOfAppend(history, Disconnect(c));
      PrefixOfAppend(effects, DisconnectLogged);
      forall d ensures Received(effects + [DisconnectLogged], d) == Received(effects, d) {
        LogEffectsDeliverNothing(effects, DisconnectLogged, d);
      }
      effects := effects + [DisconnectLogged];
      live := live - {c};
      history := history + [Disconnect(c)];
    }

    /**
     * `webstream` from connection `c`: when the counter is past the limit,
     * log a batch and reset it to 0; then call `postAPI` with the data; then
     * increment the counter. Nothing reaches any client.
     */
    method OnWebstream(c: ConnId, data: Chunk)
      requires Valid()
      requires c in live
      modifies this
      ensures Valid()
      ensures 1 <= chunkCount <= 10
      ensures BatchDue(old(chunkCount)) ==> chunkCount == 1
      ensures !BatchDue(old(chunkCount)) ==> chunkCount == old(chunkCount) + 1
      ensures effects == old(effects) + (if BatchDue(old(chunkCount)) then [BatchLogged] else []) + [Dispatched(data)]
      ensures pending == old(pending) + [data]
      ensures live == old(live)
      ensures history == old(history) + [Webstream(c, data)]
      ensures forall d :: Received(effects, d) == Received(old(effects), d)
    {
      ghost var h0 := history;
      PrefixOfAppend(history, Webstream(c, data));
      if chunkCount > 9 {
        PrefixOfAppend(effects, BatchLogged);
        forall d ensures Received(effects + [BatchLogged], d) == Received(effects, d) {
          LogEffectsDeliverNothing(effects, BatchLogged, d);
        }
        effects := effects + [BatchLogged];
        chunkCount := 0;
      }
      PrefixOfAppend(effects, Dispatched(data));
      forall d ensures Received(effects + [Dispatched(data)], d) == Received(effects, d) {
        LogEffectsDeliverNothing(effects, Dispatched(data), d);
      }
      effects := effects + [Dispatched(data)];
      pending := pending + [data];
      chunkCount := chunkCount + 1;
      history := history + [Webstream(c, data)];
      assert history[..|history| - 1] == h0;
    }

    /**
     * The callback of the `postAPI` call for `pending[k]` runs. On success it
     * only logs; on failure it broadcasts ('webstream', 'fail') to every
     * connection open now, whether or not the chunk's sender still is.
     */
    method OnOutcome(k: nat, success: bool)
      requires Valid()
      requires k < |pending|
      modifies this
      ensures Valid()
      ensures pending == old(pending[..k] + pending[k + 1..])
      ensures chunkCount == old(chunkCount) && live == old(live)
      ensures success ==> effects == old(effects) + [SuccessLogged]
      ensures !success ==> effects == old(effects) + [Emitted(live, Message(StreamEvent, FailMessage))]
      ensures history == old(history) + [Outcome(success)]
      ensures forall d :: Received(effects, d)
                       == Received(old(effects), d)
                          + (if !success && d in live then [Message(StreamEvent, FailMessage)] else [])
    {
      PrefixOfAppend(history, Outcome(success));
      pending := pending[..k] + pending[k + 1..];
      var e := if success then SuccessLogged else Emitted(live, Message(StreamEvent, FailMessage));
      PrefixOfAppend(effects, e);
      forall d
        ensures Received(effects + [e], d)
             == Received(effects, d) + (if !success && d in live then [Message(StreamEvent, FailMessage)] else [])
      {
        if success {
          LogEffectsDeliverNothing(effects, e, d);
        } else {
          FailBroadcastReachesEveryLive(effects, live, d);
        }
      }
      effects := effects + [e];
      history := history + [Outcome(success)];
    }
  }

  /**
   * Whatever sockets the chunks came from, a server that has handled n >= 1
   * chunks holds the counter ((n - 1) mod 10) + 1 and has logged the batch
   * line (n - 1) div 10 times.
   */
  lemma ServerFollowsClosedForm(s: StreamServer)
    requires s.Valid()
    requires ChunkEvents(s.history) >= 1
    ensures 1 <= s.chunkCount <= 10
    ensures s.chunkCount == (ChunkEvents(s.history) - 1) % 10 + 1
    ensures BatchLogs(s.effects) == (ChunkEvents(s.history) - 1) / 10
  {
    ClosedForm(ChunkEvents(s.history));
  }

  /**
   * Two sockets, one counter: when every chunk a server has handled came from
   * connection `a` or `b`, six from each, in any interleaving with connects,
   * disconnects and outcomes, exactly one batch has been logged and the
   * counter is at 2.
   */
  lemma TwoSendersShareOneCounter(s: StreamServer, a: ConnId, b: ConnId)
    requires s.Valid()
    requires a != b
    requires forall i :: 0 <= i < |s.history| && s.history[i].Webstream? ==> s.history[i].conn in {a, b}
    requires ChunksFrom(s.history, a) == 6 && ChunksFrom(s.history, b) == 6
    ensures s.chunkCount == 2 && BatchLogs(s.effects) == 1
  {
    SharedCount(s.history, a, b);
    ClosedForm(ChunkEvents(s.history));
  }

  /** Whatever has happened, a client has only ever been sent ('webstream', 'fail'). */
  lemma ClientsOnlyReceiveFail(s: StreamServer, c: ConnId)
    requires s.Valid()
    ensures forall m :: m in Received(s.effects, c) ==> m == Message(StreamEvent, FailMessage)
  {
    OnlyFailReceived(s.effects, c);
  }

  /**
   * Connections 1 and 2 are open and 1 sends a chunk whose `postAPI` call
   * fails: both connections get ('webstream', 'fail'), not only the sender.
   */
  method FailureReachesEveryConnection(data: Chunk) returns (toSender: seq<Message>, toOther: seq<Message>)
    ensures toSender == [Message(StreamEvent, FailMessage)]
    ensures toOther == [Message(StreamEvent, FailMessage)]
  {
    var s := new StreamServer();
    s.OnConnect(1);
    s.OnConnect(2);
    s.OnWebstream(1, data);
    s.OnOutcome(0, false);
    toSender, toOther := Received(s.effects, 1), Received(s.effects, 2);
  }

  /**
   * Connections 1 and 2 are open; 1 sends a chunk and disconnects before its
   * `postAPI` call fails. The failure still reaches connection 2, and
   * connection 1, gone, gets nothing.
   */
  method FailureAfterSenderLeft(data: Chunk) returns (toSender: seq<Message>, toOther: seq<Message>)
    ensures toSender == []
    ensures toOther == [Message(StreamEvent, FailMessage)]
  {
    var s := new StreamServer();
    s.OnConnect(1);
    s.OnConnect(2);
    s.OnWebstream(1, data);
    s.OnDisconnect(1);
    s.OnOutcome(0, false);
    toSender, toOther := Received(s.effects, 1), Received(s.effects, 2);
  }
}
