/**
 * The batch counter of the websocket ingestion handler: the module-level
 * `chunkCount` in app.js, which every `webstream` event, from any socket,
 * advances. On entry the handler first checks the counter against the limit
 * (logging a batch and resetting to 0 when it is exceeded), then dispatches
 * the chunk, then increments. The functions here give the counter's value and
 * the number of batch log lines after n chunks; the lemmas give their closed
 * form.
 */
module BatchCounter {

  /** The handler logs a batch and resets when the counter exceeds this value on entry. */
  const BatchLimit: nat := 9

  /** Whether a `webstream` event that finds the counter at `count` logs a batch and resets it. */
  predicate BatchDue(count: nat) {
    count > BatchLimit
  }

  /**
   * The counter after one `webstream` event that finds it at `count`: the
   * reset (when due) comes before the increment. Whatever the counter was, it
   * ends in 1..10, and it fails to grow exactly when a batch was logged.
   */
  function NextCount(count: nat): (r: nat)
    ensures 1 <= r <= BatchLimit + 1
    ensures r <= count <==> BatchDue(count)
  {
    (if BatchDue(count) then 0 else count) + 1
  }

  /** The counter after `n` `webstream` events, starting from its initial value 0. */
  function CountAfter(n: nat): (r: nat)
    ensures r == 0 <==> n == 0
    ensures r <= BatchLimit + 1
  {
    if n == 0 then 0 else NextCount(CountAfter(n - 1))
  }

  /** How many batch log lines `n` `webstream` events produce, starting from 0. */
  function BatchesAfter(n: nat): (r: nat)
  {
    if n == 0 then 0
    else BatchesAfter(n - 1) + (if BatchDue(CountAfter(n - 1)) then 1 else 0)
  }

  /**
   * Closed form: after n >= 1 chunks the counter is ((n - 1) mod 10) + 1 and
   * the batch line has been logged (n - 1) div 10 times.
   */
  lemma {:induction false} ClosedForm(n: nat)
    requires n >= 1
    ensures CountAfter(n) == (n - 1) % 10 + 1
    ensures BatchesAfter(n) == (n - 1) / 10
  {
    if n > 1 {
      ClosedForm(n - 1);
      var m := n - 2;
      if m % 10 == 9 {
        assert (m + 1) % 10 == 0 && (m + 1) / 10 == m / 10 + 1;
      } else {
        assert (m + 1) % 10 == m % 10 + 1 && (m + 1) / 10 == m / 10;
      }
    }
  }

  /**
   * The boundary: ten chunks log no batch and leave the counter at 10; the
   * eleventh logs the first batch and leaves the counter at 1, not 0.
   */
  lemma EleventhChunkLogsFirstBatch()
    ensures CountAfter(10) == 10 && BatchesAfter(10) == 0
    ensures CountAfter(11) == 1 && BatchesAfter(11) == 1
  {
    ClosedForm(10);
    ClosedForm(11);
  }

  /**
   * A batch line is logged by chunk n + 1 exactly when n is a positive
   * multiple of 10: on the 11th, 21st, 31st, ... chunk.
   */
  lemma {:induction false} BatchDueExactlyEveryTenth(n: nat)
    ensures BatchDue(CountAfter(n)) <==> n > 0 && n % 10 == 0
  {
    if n > 0 {
      ClosedForm(n);
    }
  }
}
