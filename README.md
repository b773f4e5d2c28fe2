# Websocket chunk ingestion: a Dafny model

This project models the realtime ingestion path of the web application in
`app.js`. It is the socket.io handler registered with `io.on('connection', ...)`,
together with the module-level counter `chunkCount`. Clients stream scan
frames as `webstream` events. Every chunk, from any socket, goes to the image
service through `imageTest.postAPI`. One process-wide counter logs a line per
batch of chunks. When a `postAPI` call fails, `('webstream', 'fail')` is
broadcast to every open connection.

Layout:

- `batch_counter.dfy` (module `BatchCounter`): the counter as a pure
  specification. `NextCount` is one `webstream` step. `CountAfter(n)` and
  `BatchesAfter(n)` give the counter value and the number of batch log lines
  after n chunks. The lemmas give the closed form and the 10/11 boundary.
- `trace.dfy` (module `Trace`): inbound events (`Connect`, `Webstream`,
  `Outcome`, `Disconnect`) and the handler's effects (log lines, `postAPI`
  calls as `Dispatched`, broadcasts as `Emitted`). The observation functions
  over a history or an effect trace, such as `Received(effects, c)`, give
  what connection `c` was sent.
- `ingestion.dfy` (module `Ingestion`): class `StreamServer` holds the
  mutable state. That state is `chunkCount`, the set of live connections
  (socket.io's connection table, which `io.emit` reaches), the `postAPI`
  calls still in flight, and the effect trace. There is one method per
  handler. The object invariant `Valid()` ties the counter and the batch log
  to the number of chunks handled, whichever sockets sent them. It also ties
  the `postAPI` calls to the received payloads, in order. Two client methods
  (`FailureReachesEveryConnection`, `FailureAfterSenderLeft`) run concrete
  event sequences through the class.

The order inside the `webstream` handler follows `app.js:161-177` exactly.
First it tests `chunkCount > 9`, and if that holds it logs a batch and sets
the counter to 0. Then it calls `postAPI`. Then it increments. So after a
batch the counter is 1, not 0. The first batch line comes with the 11th chunk
and then with every 10th chunk after that (21st, 31st, ...). The counter
always lies in 1..10 after a chunk.

## Model

| member | source | states |
|---|---|---|
| `BatchCounter.NextCount` | app.js:162-176 | After one `webstream` event the counter lies in 1..10, whatever it was on entry. It fails to grow exactly when the batch condition (`chunkCount > 9`) held on entry. |
| `BatchCounter.CountAfter` | app.js:27 | Starting from 0, the counter is 0 exactly when no chunk has arrived, and it never exceeds 10. |
| `BatchCounter.ClosedForm` | app.js:161-176 | After n >= 1 chunks the counter is ((n-1) mod 10) + 1 and the batch line has been logged (n-1) div 10 times. |
| `BatchCounter.EleventhChunkLogsFirstBatch` | app.js:162-165 | Ten chunks log no batch and leave the counter at 10. The eleventh logs the first batch and leaves the counter at 1. |
| `BatchCounter.BatchDueExactlyEveryTenth` | app.js:162-165 | Chunk n+1 logs a batch and resets the counter exactly when n is a positive multiple of 10. |
| `Trace.SharedCount` | app.js:158-161 | When every chunk of a history comes from one of two connections, the total the counter sees is the sum of both senders' chunks, whatever connects, disconnects and outcomes are interleaved. There is one counter, not one per socket. |
| `Trace.OnlyFailReceived` | app.js:167-173 | When the only broadcast in an effect trace is the failure one, no client receives anything other than `('webstream', 'fail')`. |
| `Ingestion.StreamServer.constructor` | app.js:27 | At process start `chunkCount` is 0. No connection is open, no call is in flight and no effect has happened. |
| `Ingestion.StreamServer.OnConnect` | app.js:158-159 | Adds the connection to the live set and logs. The counter, the in-flight calls and every client's received messages are unchanged. |
| `Ingestion.StreamServer.OnDisconnect` | app.js:179-181 | Removes the connection from the live set and logs. The counter, the in-flight calls and every client's received messages are unchanged. |
| `Ingestion.StreamServer.OnWebstream` | app.js:161-177 | When `chunkCount > 9` on entry it logs a batch and the counter ends at 1. Otherwise the counter goes up by one. Either way exactly one `postAPI` call carries the data and no client receives anything. The invariant keeps the counter and the batch count equal to the closed form of the number of chunks. |
| `Ingestion.StreamServer.OnOutcome` | app.js:167-174 | Resolves one in-flight call. On success it only logs. On failure every currently live connection receives `('webstream', 'fail')`, whether or not the sender is still connected. The counter and the live set are unchanged. |
| `Ingestion.TwoSendersShareOneCounter` | app.js:158-177 | Take a server whose chunks all came from two connections, six from each, in any interleaving with other events. It has logged exactly one batch and its counter is 2. |
| `Ingestion.ClientsOnlyReceiveFail` | app.js:167-174 | Whatever a server has handled, every message any client has received from it is `('webstream', 'fail')`. The success callback sends nothing, because its emit is commented out. |
| `Ingestion.ServerFollowsClosedForm` | app.js:161-176 | Take a server that has handled n >= 1 chunks from any sockets. Its counter is ((n-1) mod 10) + 1, within 1..10, and it has logged the batch line (n-1) div 10 times. |
| `Ingestion.FailureReachesEveryConnection` | app.js:171-173 | Run through the class with connections 1 and 2 open: a failed chunk from 1 delivers `('webstream', 'fail')` to both 1 and 2. |
| `Ingestion.FailureAfterSenderLeft` | app.js:167-174 | Run through the class: connection 1 sends a chunk and disconnects before the call fails. The failure still reaches connection 2, and 1 gets nothing. |

## Left out

- Express configuration, middleware, sessions, CSRF, static mounts, routes and OAuth (`app.js:1-150`): framework configuration with no logic of its own.
- The MongoDB connection and its `process.exit` on error (`app.js:42-46`) and `server.listen` (`app.js:153-155`): I/O.
- The inside of `imageTest.postAPI`: `controllers/imageApi` is not part of this model. Its outcome is an input to `OnOutcome`, and the `user` value passed to the success callback is ignored, as the callback ignores it.
- Log texts: each console line is an abstract effect (`ConnectLogged`, `BatchLogged`, ...).
- Asynchronous timing and socket.io transport internals: each handler and each callback runs as one atomic step, as on the single event loop. Which in-flight call resolves next is chosen by the caller of `OnOutcome`, and no call ever times out.
- The transport's own guarantees are preconditions rather than modelled behaviour. Connection ids are unique while open (`OnConnect`). Only open connections deliver `webstream` and `disconnect` (`OnWebstream`, `OnDisconnect`). A callback runs only for a call that is in flight (`OnOutcome`).
- `imageTest.postAPI` is assumed to return normally. If it threw synchronously at `app.js:167`, the increment at `app.js:176` would be skipped. After a reset that would leave the counter at 0, and the exception would escape the listener. The model does not capture this path.
- The chunk payload is modelled as a byte sequence. The handler never inspects it.
