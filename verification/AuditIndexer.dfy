/**
 The audit indexer: its buffer and flush loop. One input is what one wait for a message yields: a message after
 `gap` milliseconds, or the timeout; `bulk` is what a bulk call made there would come to. The end of the inputs is
 the cancellation that leaves the loop. Processing takes no time.
 */
module AuditIndexer {
  import opened Wrappers
  import opened Enforcement

  datatype Input = Got(event: AuditEvent, gap: nat, bulk: BulkResult) | TimedOut(bulk: BulkResult)

  datatype BulkResult = Indexed | PartlyFailed | Raised

  // An event with the time it was taken from the topic.
  datatype Stamped = Stamped(event: AuditEvent, taken: int)

  datatype Attempt = Attempt(batch: seq<Stamped>, time: int, result: BulkResult)

  datatype Indexer = Indexer(now: int, buffer: seq<Stamped>, attempts: seq<Attempt>)

  // An empty buffer is not sent; whatever the bulk call does, the buffer is cleared.
  function Flushed(x: Indexer, bulk: BulkResult): Indexer {
    if x.buffer == [] then x
    else Indexer(x.now, [], x.attempts + [Attempt(x.buffer, x.now, bulk)])
  }

  function Taken(x: Indexer, batchSize: int, interval: nat, input: Input): Indexer {
    match input
    case Got(event, gap, bulk) =>
      var y := x.(now := x.now + gap, buffer := x.buffer + [Stamped(event, x.now + gap)]);
      if |y.buffer| >= batchSize then Flushed(y, bulk) else y
    case TimedOut(bulk) => Flushed(x.(now := x.now + interval), bulk)
  }

  // The indexer at the head of its loop, after the first n inputs.
  function Loop(start: int, batchSize: int, interval: nat, inputs: seq<Input>, n: nat): Indexer
    requires n <= |inputs|
  {
    if n == 0 then Indexer(start, [], [])
    else Taken(Loop(start, batchSize, interval, inputs, n - 1), batchSize, interval, inputs[n - 1])
  }

  /** The mutable list the loop fills and the flush clears. */
  class EventBuffer {
    var items: seq<Stamped>

    constructor ()
      ensures items == []
    {
      items := [];
    }

    method Append(item: Stamped)
      modifies this
      ensures items == old(items) + [item]
    {
      items := items + [item];
    }

    method Clear()
      modifies this
      ensures items == []
    {
      items := [];
    }
  }

  method Flush(buffer: EventBuffer, now: int, bulk: BulkResult, attempts: seq<Attempt>)
    returns (after: seq<Attempt>)
    modifies buffer
    ensures buffer.items == []
    ensures Indexer(now, buffer.items, after) == Flushed(Indexer(now, old(buffer.items), attempts), bulk)
  {
    after := attempts;
    if buffer.items == [] {
      return;
    }
    after := after + [Attempt(buffer.items, now, bulk)];
    buffer.Clear();
  }

  // The loop body: append and flush when full, or flush on timeout.
  method TakeOne(buffer: EventBuffer, now: int, batchSize: int, interval: nat,
                 attempts: seq<Attempt>, input: Input)
    returns (later: int, after: seq<Attempt>)
    modifies buffer
    ensures Indexer(later, buffer.items, after)
         == Taken(Indexer(now, old(buffer.items), attempts), batchSize, interval, input)
  {
    after := attempts;
    match input {
      case Got(event, gap, bulk) =>
        later := now + gap;
        buffer.Append(Stamped(event, later));
        if |buffer.items| >= batchSize {
          after := Flush(buffer, later, bulk, attempts);
        }
      case TimedOut(bulk) =>
        later := now + interval;
        after := Flush(buffer, later, bulk, attempts);
    }
  }

  // The loop over all inputs.
  method Consume(buffer: EventBuffer, start: int, batchSize: int, interval: nat, inputs: seq<Input>)
    returns (now: int, attempts: seq<Attempt>)
    requires buffer.items == []
    modifies buffer
    ensures Indexer(now, buffer.items, attempts) == Loop(start, batchSize, interval, inputs, |inputs|)
  {
    now, attempts := start, [];
    for i := 0 to |inputs|
      invariant Indexer(now, buffer.items, attempts) == Loop(start, batchSize, interval, inputs, i)
    {
      now, attempts := TakeOne(buffer, now, batchSize, interval, attempts, inputs[i]);
    }
  }

  // The whole run: the loop, and the drain on exit `exitGap` milliseconds after the last input.
  method Run(start: int, batchSize: int, interval: nat, inputs: seq<Input>, exitGap: nat, bulk: BulkResult)
    returns (attempts: seq<Attempt>)
    requires Timely(inputs, interval) && exitGap <= interval
    ensures Concatenated(attempts) == Stamps(start, interval, inputs, |inputs|)
    ensures AttemptsOk(attempts, batchSize, interval)
  {
    var buffer := new EventBuffer();
    var now;
    now, attempts := Consume(buffer, start, batchSize, interval, inputs);
    ghost var taken := Stamps(start, interval, inputs, |inputs|);
    LoopKeeps(start, batchSize, interval, inputs, |inputs|);
    DrainKeeps(Indexer(now, buffer.items, attempts), batchSize, interval, exitGap, bulk, taken);
    attempts := Flush(buffer, now + exitGap, bulk, attempts);
  }

  // ---------- What the loop keeps ----------

  // A message comes within the timeout, or the timeout fires.
  predicate Timely(inputs: seq<Input>, interval: nat) {
    forall i :: 0 <= i < |inputs| && inputs[i].Got? ==> inputs[i].gap <= interval
  }

  function Elapsed(interval: nat, input: Input): nat {
    match input case Got(_, gap, _) => gap case TimedOut(_) => interval
  }

  function Clock(start: int, interval: nat, inputs: seq<Input>, n: nat): int
    requires n <= |inputs|
  {
    if n == 0 then start else Clock(start, interval, inputs, n - 1) + Elapsed(interval, inputs[n - 1])
  }

  function Stamp(input: Input, now: int): seq<Stamped> {
    match input case Got(event, _, _) => [Stamped(event, now)] case TimedOut(_) => []
  }

  // Every event taken with the first n inputs, in order, with its time.
  function Stamps(start: int, interval: nat, inputs: seq<Input>, n: nat): seq<Stamped>
    requires n <= |inputs|
  {
    if n == 0 then []
    else Stamps(start, interval, inputs, n - 1) + Stamp(inputs[n - 1], Clock(start, interval, inputs, n))
  }

  function Concatenated(attempts: seq<Attempt>): seq<Stamped> {
    if attempts == [] then []
    else Concatenated(attempts[..|attempts| - 1]) + attempts[|attempts| - 1].batch
  }

  // The wait for a number of other events, each arriving just before the timeout, as a sum.
  function WaitBound(others: int, interval: nat): nat {
    if others <= 0 then 0 else WaitBound(others - 1, interval) + interval
  }

  lemma {:induction false} WaitBoundIsProduct(others: nat, interval: nat)
    ensures WaitBound(others, interval) == others * interval
  {
    if others > 0 {
      WaitBoundIsProduct(others - 1, interval);
    }
  }

  ghost predicate Waited(events: seq<Stamped>, now: int, bound: int) {
    forall i :: 0 <= i < |events| ==> 0 <= now - events[i].taken <= bound
  }

  // A batch is not empty and not over size, and none of its events waited longer than the bound.
  ghost predicate AttemptOk(a: Attempt, batchSize: int, interval: nat) {
    && 1 <= |a.batch| <= Max(batchSize, 1)
    && Waited(a.batch, a.time, (Max(batchSize, 1) - 1) * interval)
  }

  // The buffer at a loop head is short of a batch, and its oldest event has waited at most one interval for each
  // event behind it.
  ghost predicate BufferOk(x: Indexer, batchSize: int, interval: nat) {
    && |x.buffer| < Max(batchSize, 1)
    && Waited(x.buffer, x.now, WaitBound(|x.buffer| - 1, interval))
  }

  function AllTaken(x: Indexer): seq<Stamped> {
    Concatenated(x.attempts) + x.buffer
  }

  ghost predicate IndexerOk(x: Indexer, batchSize: int, interval: nat, taken: seq<Stamped>) {
    && AllTaken(x) == taken
    && AttemptsOk(x.attempts, batchSize, interval)
    && BufferOk(x, batchSize, interval)
  }

  lemma {:induction false} WaitGrows(m: int, m': int, interval: nat)
    requires m <= m'
    ensures WaitBound(m, interval) <= WaitBound(m', interval)
    decreases m' - m
  {
    if m < m' {
      WaitGrows(m, m' - 1, interval);
    }
  }

  lemma ConcatenatedSnoc(attempts: seq<Attempt>, a: Attempt)
    ensures Concatenated(attempts + [a]) == Concatenated(attempts) + a.batch
  {
    assert (attempts + [a])[..|attempts|] == attempts;
  }

  ghost predicate AttemptsOk(attempts: seq<Attempt>, batchSize: int, interval: nat) {
    forall i :: 0 <= i < |attempts| ==> AttemptOk(attempts[i], batchSize, interval)
  }

  lemma AttemptsOkSnoc(attempts: seq<Attempt>, a: Attempt, batchSize: int, interval: nat)
    requires AttemptsOk(attempts, batchSize, interval) && AttemptOk(a, batchSize, interval)
    ensures AttemptsOk(attempts + [a], batchSize, interval)
  {
  }

  lemma FlushKeeps(x: Indexer, batchSize: int, interval: nat, bulk: BulkResult)
    requires AttemptsOk(x.attempts, batchSize, interval)
    requires x.buffer != [] ==> AttemptOk(Attempt(x.buffer, x.now, bulk), batchSize, interval)
    ensures IndexerOk(Flushed(x, bulk), batchSize, interval, AllTaken(x))
  {
    var y, a := Flushed(x, bulk), Attempt(x.buffer, x.now, bulk);
    if x.buffer != [] {
      ConcatenatedSnoc(x.attempts, a);
      AttemptsOkSnoc(x.attempts, a, batchSize, interval);
      assert y == Indexer(x.now, [], x.attempts + [a]);
      assert AllTaken(y) == Concatenated(x.attempts + [a]);
    }
    assert BufferOk(y, batchSize, interval);
  }

  // Waiting up to one more interval: the buffer as an attempt at that time.
  lemma WaitedBuffer(x: Indexer, batchSize: int, interval: nat, wait: nat, result: BulkResult)
    requires BufferOk(x, batchSize, interval) && x.buffer != [] && wait <= interval
    ensures AttemptOk(Attempt(x.buffer, x.now + wait, result), batchSize, interval)
  {
    WaitGrows(|x.buffer|, Max(batchSize, 1) - 1, interval);
    WaitBoundIsProduct(Max(batchSize, 1) - 1, interval);
  }

  // After an append: the buffer may be full, and has waited one more interval at most.
  ghost predicate FilledOk(y: Indexer, batchSize: int, interval: nat, taken: seq<Stamped>) {
    && AllTaken(y) == taken && AttemptsOk(y.attempts, batchSize, interval)
    && 1 <= |y.buffer| <= Max(batchSize, 1) && Waited(y.buffer, y.now, WaitBound(|y.buffer| - 1, interval))
  }

  lemma AppendFills(x: Indexer, batchSize: int, interval: nat, event: AuditEvent, gap: nat, taken: seq<Stamped>)
    requires IndexerOk(x, batchSize, interval, taken) && gap <= interval
    ensures var item := Stamped(event, x.now + gap);
            FilledOk(Indexer(x.now + gap, x.buffer + [item], x.attempts), batchSize, interval, taken + [item])
  {
    AppendLast(Concatenated(x.attempts), x.buffer, Stamped(event, x.now + gap), taken);
  }

  lemma FilledFlushes(y: Indexer, batchSize: int, interval: nat, bulk: BulkResult, taken: seq<Stamped>)
    requires FilledOk(y, batchSize, interval, taken)
    ensures IndexerOk(if |y.buffer| >= batchSize then Flushed(y, bulk) else y, batchSize, interval, taken)
  {
    WaitGrows(|y.buffer| - 1, Max(batchSize, 1) - 1, interval);
    WaitBoundIsProduct(Max(batchSize, 1) - 1, interval);
    if |y.buffer| >= batchSize {
      FlushKeeps(y, batchSize, interval, bulk);
    }
  }

  lemma GotKeeps(x: Indexer, batchSize: int, interval: nat, event: AuditEvent, gap: nat, bulk: BulkResult,
                 taken: seq<Stamped>)
    requires IndexerOk(x, batchSize, interval, taken) && gap <= interval
    ensures IndexerOk(Taken(x, batchSize, interval, Got(event, gap, bulk)), batchSize, interval,
                      taken + [Stamped(event, x.now + gap)])
  {
    var item := Stamped(event, x.now + gap);
    AppendFills(x, batchSize, interval, event, gap, taken);
    FilledFlushes(Indexer(x.now + gap, x.buffer + [item], x.attempts), batchSize, interval, bulk, taken + [item]);
  }

  lemma AppendLast(a: seq<Stamped>, b: seq<Stamped>, item: Stamped, taken: seq<Stamped>)
    requires a + b == taken
    ensures a + (b + [item]) == taken + [item]
  {
  }

  lemma TimedOutKeeps(x: Indexer, batchSize: int, interval: nat, wait: nat, bulk: BulkResult,
                      taken: seq<Stamped>)
    requires IndexerOk(x, batchSize, interval, taken) && wait <= interval
    ensures IndexerOk(Flushed(x.(now := x.now + wait), bulk), batchSize, interval, taken)
  {
    if x.buffer != [] {
      WaitedBuffer(x, batchSize, interval, wait, bulk);
    }
    FlushKeeps(x.(now := x.now + wait), batchSize, interval, bulk);
  }

  lemma TakenKeeps(x: Indexer, batchSize: int, interval: nat, input: Input, taken: seq<Stamped>)
    requires IndexerOk(x, batchSize, interval, taken) && (input.Got? ==> input.gap <= interval)
    ensures Taken(x, batchSize, interval, input).now == x.now + Elapsed(interval, input)
    ensures IndexerOk(Taken(x, batchSize, interval, input), batchSize, interval,
                      taken + Stamp(input, x.now + Elapsed(interval, input)))
  {
    match input {
      case Got(event, gap, bulk) => GotKeeps(x, batchSize, interval, event, gap, bulk, taken);
      case TimedOut(bulk) =>
        TimedOutKeeps(x, batchSize, interval, interval, bulk, taken);
        assert taken + [] == taken;
    }
  }

  // Refinement: at every loop head, what was taken is the attempted batches followed by the buffer; every batch has
  // between one and B events; the buffer is shorter than B; and the waits are bounded.
  lemma {:induction false} LoopKeeps(start: int, batchSize: int, interval: nat, inputs: seq<Input>, n: nat)
    requires Timely(inputs, interval) && n <= |inputs|
    ensures var x := Loop(start, batchSize, interval, inputs, n);
            && x.now == Clock(start, interval, inputs, n)
            && IndexerOk(x, batchSize, interval, Stamps(start, interval, inputs, n))
  {
    if n > 0 {
      LoopKeeps(start, batchSize, interval, inputs, n - 1);
      var x, taken := Loop(start, batchSize, interval, inputs, n - 1), Stamps(start, interval, inputs, n - 1);
      TakenKeeps(x, batchSize, interval, inputs[n - 1], taken);
      assert Loop(start, batchSize, interval, inputs, n) == Taken(x, batchSize, interval, inputs[n - 1]);
      assert Stamps(start, interval, inputs, n) == taken + Stamp(inputs[n - 1], Clock(start, interval, inputs, n));
    }
  }

  // One input makes one attempt at most: of a full batch when a message completes it, of the buffer on a timeout.
  lemma TakenAttempts(x: Indexer, batchSize: int, interval: nat, input: Input)
    requires |x.buffer| < Max(batchSize, 1)
    ensures var y := Taken(x, batchSize, interval, input);
            && y.now == x.now + Elapsed(interval, input) && x.attempts <= y.attempts
            && |y.attempts| <= |x.attempts| + 1
            && (|x.attempts| < |y.attempts| ==>
                  MadeAt(y.attempts[|x.attempts|], x.buffer, batchSize, input, y.now))
  {
  }

  // This attempt was made at this input: by a message that completed the batch, or by a timeout.
  ghost predicate MadeAt(a: Attempt, buffer: seq<Stamped>, batchSize: int, input: Input, now: int) {
    && a.result == input.bulk && a.time == now && a.batch == buffer + Stamp(input, now)
    && (input.Got? ==> |a.batch| == Max(batchSize, 1))
  }

  // Each attempt of the loop belongs to one input, in order; one that is short of a batch was made on a timeout.
  lemma {:induction false} AttemptedExactly(start: int, batchSize: int, interval: nat, inputs: seq<Input>,
                                            n: nat, x: nat) returns (i: nat)
    requires Timely(inputs, interval) && n <= |inputs| && x < |Loop(start, batchSize, interval, inputs, n).attempts|
    ensures i < n && |Loop(start, batchSize, interval, inputs, i).attempts| == x
    ensures MadeAt(Loop(start, batchSize, interval, inputs, n).attempts[x],
                   Loop(start, batchSize, interval, inputs, i).buffer, batchSize, inputs[i],
                   Clock(start, interval, inputs, i + 1))
  {
    InputAttempts(start, batchSize, interval, inputs, n - 1);
    if x < |Loop(start, batchSize, interval, inputs, n - 1).attempts| {
      i := AttemptedExactly(start, batchSize, interval, inputs, n - 1, x);
    } else {
      i := n - 1;
    }
  }

  lemma InputAttempts(start: int, batchSize: int, interval: nat, inputs: seq<Input>, i: nat)
    requires Timely(inputs, interval) && i < |inputs|
    ensures var x, y := Loop(start, batchSize, interval, inputs, i), Loop(start, batchSize, interval, inputs, i + 1);
            && x.attempts <= y.attempts && |y.attempts| <= |x.attempts| + 1
            && (|x.attempts| < |y.attempts| ==>
                  MadeAt(y.attempts[|x.attempts|], x.buffer, batchSize, inputs[i],
                         Clock(start, interval, inputs, i + 1)))
  {
    LoopKeeps(start, batchSize, interval, inputs, i);
    TakenAttempts(Loop(start, batchSize, interval, inputs, i), batchSize, interval, inputs[i]);
  }

  // The drain on exit leaves nothing behind, and is no later than any other flush.
  lemma DrainKeeps(x: Indexer, batchSize: int, interval: nat, wait: nat, bulk: BulkResult,
                   taken: seq<Stamped>)
    requires IndexerOk(x, batchSize, interval, taken) && wait <= interval
    ensures var y := Flushed(x.(now := x.now + wait), bulk);
            && y.buffer == [] && Concatenated(y.attempts) == taken
            && AttemptsOk(y.attempts, batchSize, interval)
  {
    TimedOutKeeps(x, batchSize, interval, wait, bulk, taken);
    var y := Flushed(x.(now := x.now + wait), bulk);
    assert Concatenated(y.attempts) + [] == Concatenated(y.attempts);
  }

  // ---------- The staleness bound is exact ----------

  // One message at once, then each just before the timeout.
  ghost predicate SlowStream(inputs: seq<Input>, interval: nat) {
    && (forall i :: 0 <= i < |inputs| ==> inputs[i].Got? && inputs[i].gap == if i == 0 then 0 else interval)
  }

  lemma {:induction false} SlowBuffer(start: int, batchSize: int, interval: nat, inputs: seq<Input>, n: nat)
    requires SlowStream(inputs, interval) && 1 <= n <= |inputs| && n < batchSize
    ensures var x := Loop(start, batchSize, interval, inputs, n);
            && x.now == start + WaitBound(n - 1, interval) && x.attempts == []
            && |x.buffer| == n && x.buffer[0].taken == start
  {
    if n == 1 {
      assert Loop(start, batchSize, interval, inputs, 0) == Indexer(start, [], []);
    } else {
      SlowBuffer(start, batchSize, interval, inputs, n - 1);
    }
  }

  // An event can wait exactly (B - 1) intervals: each message restarts the timeout.
  lemma WorstWaitReached(start: int, batchSize: int, interval: nat, inputs: seq<Input>)
    requires SlowStream(inputs, interval) && 2 <= batchSize == |inputs|
    ensures var x := Loop(start, batchSize, interval, inputs, batchSize);
            && |x.attempts| == 1 && |x.attempts[0].batch| == batchSize
            && x.attempts[0].time - x.attempts[0].batch[0].taken == (batchSize - 1) * interval
  {
    WaitBoundIsProduct(batchSize - 1, interval);
    SlowBuffer(start, batchSize, interval, inputs, batchSize - 1);
  }
}
